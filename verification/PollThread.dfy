/**
 The thread that polls an ipc: a recursive lock held across callbacks lets a
 callback destroy its own poll and ipc, and makes everyone else wait for it.
 */
module PollThread {
  import opened Options
  import opened Ipcs

  datatype Tid = OnHost | OnPoll

  datatype Resource = Signal | Ipc | PollOf(p: nat)

  /** An attach, a detach or an ipc destroy, at its next step. The first two are about the state's `subject`. */
  datatype Op =
    | NoOp
    | AttachLock // About to take the lock
    | AttachSet  // Holding it
    | DetachLock
    | DetachSet
    | DetachFree
    | EndLock    // The port is closed
    | EndClear
    | EndSend
    | EndJoin    // From another thread
    | EndFreeSignal
    | EndDetach  // From a callback
    | EndFreeIpc
  {
    predicate Holds() {
      AttachSet? || DetachSet? || EndClear?
    }

    predicate Ending() {
      EndLock? || EndClear? || EndSend? || EndJoin? || EndFreeSignal? || EndDetach? || EndFreeIpc?
    }
  }

  datatype LoopPc =
    | Sleeping
    | WakeSeen    // About to take the lock
    | Dispatching // Holding it
    | Calling     // In the callback of poll `called`
    | Unlocking
    | LoopDone    // Both handles are closed
    | Exited
  {
    predicate Holds() {
      Dispatching? || Calling? || Unlocking?
    }
  }

  /** What is allocated; no poll has the id `next` or a larger one yet. */
  datatype Memory = Memory(signal: bool, ipc: bool, polls: set<nat>, next: nat)

  /** The shared fields; `reachable` says that the signal still points to its ipc. */
  datatype Links = Links(attached: Option<nat>, reachable: bool, detached: bool, close: bool)

  /** A recursive lock: who holds it, and how often. */
  datatype Lock = Lock(owner: Option<Tid>, depth: nat) {
    predicate Free(t: Tid) {
      owner.None? || owner == Some(t)
    }

    function Take(t: Tid): Lock {
      Lock(Some(t), depth + 1)
    }

    function Drop(): Lock {
      if depth <= 1 then Lock(None, 0) else Lock(owner, depth - 1)
    }
  }

  /** What other threads than the poll thread have destroyed, and how often the signal was freed. */
  datatype Past = Past(dropped: set<nat>, ended: bool, signalFrees: nat)

  datatype Poller = Poller(
    mem: Memory,
    links: Links,
    running: Lock,
    loop: LoopPc,
    called: nat,
    host: Op,     // What some other thread does
    nested: Op,   // What the running callback does
    subject: nat, // The poll that the operation is about
    past: Past
  ) {
    function OpOf(t: Tid): Op {
      if t.OnHost? then host else nested
    }

    function WithOp(t: Tid, op: Op): Poller {
      if t.OnHost? then this.(host := op) else this.(nested := op)
    }

    predicate Alive(r: Resource) {
      match r
      case Signal => mem.signal
      case Ipc => mem.ipc
      case PollOf(p) => p in mem.polls
    }
  }

  /** A new ipc with its signal, whose thread has just started. */
  ghost predicate Initial(s: Poller) {
    && s.mem.signal && s.mem.ipc && s.mem.polls == {}
    && s.links == Links(None, true, false, false) && s.running == Lock(None, 0)
    && s.loop.Sleeping? && s.host.NoOp? && s.nested.NoOp?
    && s.past == Past({}, false, 0)
  }

  datatype Step =
    | Attach(t: Tid)
    | Detach(t: Tid)
    | End(t: Tid)
    | Next(t: Tid)      // The next step of an operation
    | Wake        // The ipc is signalled
    | LoopWake    // Wakes coalesce, so the loop may take one at any time
    | LoopLock
    | Dispatch(call: bool)
    | Return            // The callback returns
    | LoopUnlock
    | LoopClose
    | LoopExit

  /** An operation may begin: the ipc is there, no other operation runs, and callbacks run on the poll thread. */
  predicate MayBegin(s: Poller, t: Tid) {
    s.host.NoOp? && s.nested.NoOp? && s.mem.ipc && s.links.reachable && (t.OnPoll? ==> s.loop.Calling?)
  }

  predicate Enabled(s: Poller, step: Step) {
    match step
    case Attach(t) => MayBegin(s, t) && s.links.attached.None?
    case Detach(t) => MayBegin(s, t) && s.links.attached.Some?
    case End(t) => MayBegin(s, t)
    case Next(t) =>
      match s.OpOf(t) {
        case NoOp => false
        case AttachLock => s.running.Free(t)
        case DetachLock => s.running.Free(t)
        case EndLock => s.running.Free(t)
        case EndJoin => s.loop.Exited?
        case _ => true
      }
    case Wake => s.mem.ipc && s.links.reachable && !s.host.Ending() && !s.nested.Ending()
    case LoopWake => s.loop.Sleeping?
    case LoopLock => s.loop.WakeSeen? && s.running.Free(OnPoll)
    case Dispatch(call) => s.loop.Dispatching? && (call ==> s.links.reachable && s.links.attached.Some?)
    case Return => s.loop.Calling? && s.nested.NoOp?
    case LoopUnlock => s.loop.Unlocking?
    case LoopClose => s.loop.Sleeping? && s.links.close
    case LoopExit => s.loop.LoopDone?
  }

  function TouchedByOp(op: Op, p: nat): set<Resource> {
    match op
    case NoOp => {}
    case AttachLock => {Ipc, Signal}
    case AttachSet => {Ipc, Signal, PollOf(p)}
    case DetachLock => {PollOf(p), Ipc, Signal}
    case DetachSet => {Ipc, Signal}
    case DetachFree => {PollOf(p)}
    case EndLock => {Ipc, Signal}
    case EndClear => {Signal}
    case EndSend => {Signal}
    case EndJoin => {Signal}
    case EndFreeSignal => {Signal, Ipc}
    case EndDetach => {Signal, Ipc}
    case EndFreeIpc => {Ipc}
  }

  function Touches(s: Poller, step: Step): set<Resource> {
    match step
    case Attach(_) => {Ipc}
    case Detach(_) => {Ipc} + (if s.links.attached.Some? then {PollOf(s.links.attached.value)} else {})
    case End(_) => {Ipc, Signal}
    case Next(t) => TouchedByOp(s.OpOf(t), s.subject)
    case Wake => {Ipc, Signal}
    case LoopWake => {Signal}
    case LoopLock => {Signal}
    case Dispatch(_) =>
      {Signal}
      + (if s.links.reachable then {Ipc} else {})
      + (if s.links.reachable && s.links.attached.Some? then {PollOf(s.links.attached.value)} else {})
    case Return => {}
    case LoopUnlock => {Signal}
    case LoopClose => {Signal}
    case LoopExit => {Signal}
  }

  function FreeSignal(s: Poller): Poller {
    s.(mem := s.mem.(signal := false), past := s.past.(signalFrees := s.past.signalFrees + 1))
  }

  function DoNext(s: Poller, t: Tid): Poller {
    var p := s.subject;
    match s.OpOf(t)
    case NoOp => s
    case AttachLock => s.(running := s.running.Take(t)).WithOp(t, AttachSet)
    case AttachSet =>
      s.(links := s.links.(attached := Some(p)), running := s.running.Drop()).WithOp(t, NoOp)
    case DetachLock => s.(running := s.running.Take(t)).WithOp(t, DetachSet)
    case DetachSet =>
      s.(links := s.links.(attached := None), running := s.running.Drop()).WithOp(t, DetachFree)
    case DetachFree =>
      s.(mem := s.mem.(polls := s.mem.polls - {p}),
         past := if t.OnHost? then s.past.(dropped := s.past.dropped + {p}) else s.past).WithOp(t, NoOp)
    case EndLock => s.(running := s.running.Take(t)).WithOp(t, EndClear)
    case EndClear =>
      s.(links := s.links.(reachable := false), running := s.running.Drop()).WithOp(t, EndSend)
    case EndSend => s.(links := s.links.(close := true)).WithOp(t, if t.OnHost? then EndJoin else EndDetach)
    case EndJoin => s.WithOp(t, EndFreeSignal)
    case EndFreeSignal => FreeSignal(s).WithOp(t, EndFreeIpc)
    case EndDetach => s.(links := s.links.(detached := true)).WithOp(t, EndFreeIpc)
    case EndFreeIpc =>
      s.(mem := s.mem.(ipc := false), past := s.past.(ended := s.past.ended || t.OnHost?)).WithOp(t, NoOp)
  }

  function Do(s: Poller, step: Step): Poller {
    match step
    case Attach(t) =>
      s.(mem := s.mem.(polls := s.mem.polls + {s.mem.next}, next := s.mem.next + 1), subject := s.mem.next)
       .WithOp(t, AttachLock)
    case Detach(t) =>
      if s.links.attached.Some? then s.(subject := s.links.attached.value).WithOp(t, DetachLock) else s
    case End(t) => s.WithOp(t, EndLock)
    case Next(t) => DoNext(s, t)
    case Wake => s
    case LoopWake => s.(loop := WakeSeen)
    case LoopLock => s.(running := s.running.Take(OnPoll), loop := Dispatching)
    case Dispatch(call) =>
      if call && s.links.attached.Some? then s.(loop := Calling, called := s.links.attached.value)
      else s.(loop := Unlocking)
    case Return => s.(loop := Unlocking)
    case LoopUnlock => s.(running := s.running.Drop(), loop := Sleeping)
    case LoopClose => s.(loop := LoopDone)
    case LoopExit => (if s.links.detached then FreeSignal(s) else s).(loop := Exited)
  }

  function Bit(b: bool): nat {
    if b then 1 else 0
  }

  /** Who holds the lock, and how often, is what the program points say. */
  ghost predicate LockMatches(s: Poller) {
    && s.running.depth == Bit(s.loop.Holds()) + Bit(s.host.Holds()) + Bit(s.nested.Holds())
    && (s.running.owner == Some(OnPoll) <==> s.loop.Holds())
    && (s.running.owner == Some(OnHost) <==> s.host.Holds())
    && (!s.nested.NoOp? ==> s.loop.Calling? && s.host.NoOp?)
  }

  predicate OpHasPoll(s: Poller, op: Op) {
    && (op.AttachLock? || op.AttachSet? || op.DetachFree? ==> s.subject in s.mem.polls && s.links.attached.None?)
    && (op.DetachLock? || op.DetachSet? ==> s.subject in s.mem.polls && s.links.attached == Some(s.subject))
  }

  ghost predicate PollsMatch(s: Poller) {
    && (forall p :: p in s.mem.polls ==> p < s.mem.next && p !in s.past.dropped)
    && (forall p :: p in s.past.dropped ==> p < s.mem.next)
    && (s.links.attached.Some? ==> s.links.attached.value in s.mem.polls)
    && OpHasPoll(s, s.host) && OpHasPoll(s, s.nested)
    && (s.loop.Calling? ==>
          && s.called !in s.past.dropped && s.called < s.mem.next
          && (s.host.NoOp? || s.host.AttachLock? || s.host.DetachLock? || s.host.EndLock?))
  }

  /** How far a destroy on another thread has come. */
  ghost predicate HostEnds(s: Poller) {
    && !s.host.EndDetach?
    && (s.host.EndSend? ==> !s.links.close && !s.links.detached && s.mem.signal)
    && (s.host.EndJoin? ==> s.links.close && !s.links.detached && s.mem.signal)
    && (s.host.EndFreeSignal? ==> s.loop.Exited? && s.mem.signal && !s.links.detached)
    && (s.host.EndFreeIpc? ==> s.loop.Exited? && !s.mem.signal)
    && (s.past.ended ==> s.loop.Exited? && !s.mem.signal && !s.mem.ipc)
  }

  /** How far a destroy from a callback has come. */
  ghost predicate NestedEnds(s: Poller) {
    && !s.nested.EndJoin? && !s.nested.EndFreeSignal?
    && (s.nested.EndSend? ==> !s.links.close && !s.links.detached && s.mem.signal)
    && (s.nested.EndDetach? ==> s.links.close && !s.links.detached && s.mem.signal)
    && (s.nested.EndFreeIpc? ==> s.links.detached && s.mem.signal)
    && (s.links.detached ==>
          s.links.close && s.host.NoOp? && !s.past.ended && (s.mem.signal <==> !s.loop.Exited?))
  }

  /** The op leaves the ipc reachable. */
  predicate Reaches(op: Op) {
    !op.NoOp? && (!op.Ending() || op.EndLock? || op.EndClear?)
  }

  ghost predicate EndMatches(s: Poller) {
    && (s.mem.ipc <==> s.links.reachable || s.host.Ending() || s.nested.Ending())
    && (s.links.reachable ==> s.mem.signal && !s.links.close && !s.links.detached && !s.past.ended)
    && (s.links.reachable ==> (s.host.NoOp? || Reaches(s.host)) && (s.nested.NoOp? || Reaches(s.nested)))
    && (Reaches(s.host) || Reaches(s.nested) ==> s.links.reachable)
    && HostEnds(s) && NestedEnds(s)
    && (s.loop.LoopDone? || s.loop.Exited? ==> s.links.close)
    && (!s.loop.Exited? ==> s.mem.signal)
    && (s.links.close && !s.links.detached ==>
          s.host.EndJoin? || s.host.EndFreeSignal? || s.host.EndFreeIpc? || s.past.ended || s.nested.EndDetach?)
    && s.past.signalFrees == (if s.mem.signal then 0 else 1)
  }

  ghost predicate Inv(s: Poller) {
    LockMatches(s) && PollsMatch(s) && EndMatches(s)
  }

  lemma InitialInv(s: Poller)
    requires Initial(s)
    ensures Inv(s)
  {
  }

  lemma StepKeepsLock(s: Poller, step: Step)
    requires Inv(s) && Enabled(s, step)
    ensures LockMatches(Do(s, step))
  {
    match step
    case Next(t) =>
    case _ =>
  }

  lemma NextKeepsPolls(s: Poller, t: Tid)
    requires Inv(s) && Enabled(s, Next(t))
    ensures PollsMatch(DoNext(s, t))
  {
  }

  lemma StepKeepsPolls(s: Poller, step: Step)
    requires Inv(s) && Enabled(s, step)
    ensures PollsMatch(Do(s, step))
  {
    match step
    case Next(t) => NextKeepsPolls(s, t);
    case _ =>
  }

  lemma NextKeepsEnd(s: Poller, t: Tid)
    requires Inv(s) && Enabled(s, Next(t))
    ensures EndMatches(DoNext(s, t))
  {
  }

  lemma StepKeepsEnd(s: Poller, step: Step)
    requires Inv(s) && Enabled(s, step)
    ensures EndMatches(Do(s, step))
  {
    match step
    case Next(t) => NextKeepsEnd(s, t);
    case _ =>
  }

  lemma StepKeepsInv(s: Poller, step: Step)
    requires Inv(s) && Enabled(s, step)
    ensures Inv(Do(s, step))
  {
    StepKeepsLock(s, step);
    StepKeepsPolls(s, step);
    StepKeepsEnd(s, step);
  }

  ghost predicate Legal(s: Poller, steps: seq<Step>)
    decreases |steps|
  {
    steps == [] || (Enabled(s, steps[0]) && Legal(Do(s, steps[0]), steps[1..]))
  }

  ghost function After(s: Poller, steps: seq<Step>): Poller
    decreases |steps|
  {
    if steps == [] then s else After(Do(s, steps[0]), steps[1..])
  }

  lemma {:induction false} RunKeepsInv(s: Poller, steps: seq<Step>)
    requires Inv(s) && Legal(s, steps)
    ensures Inv(After(s, steps))
    decreases |steps|
  {
    if steps != [] {
      StepKeepsInv(s, steps[0]);
      RunKeepsInv(Do(s, steps[0]), steps[1..]);
    }
  }

  // Main results

  lemma TouchesAlive(s: Poller, step: Step, r: Resource)
    requires Inv(s) && Enabled(s, step) && r in Touches(s, step)
    ensures s.Alive(r)
  {
  }

  /** Neither the signal, the ipc nor a poll is touched after its release, even when a callback destroys its own. */
  lemma NothingUsedAfterRelease(s0: Poller, steps: seq<Step>, step: Step, r: Resource)
    requires Initial(s0) && Legal(s0, steps) && Enabled(After(s0, steps), step)
    requires r in Touches(After(s0, steps), step)
    ensures After(s0, steps).Alive(r)
  {
    InitialInv(s0);
    RunKeepsInv(s0, steps);
    TouchesAlive(After(s0, steps), step, r);
  }

  /** Once another thread has destroyed a poll or the ipc, no callback of it runs. */
  lemma NoCallbackAfterDestroy(s0: Poller, steps: seq<Step>)
    requires Initial(s0) && Legal(s0, steps)
    ensures var s := After(s0, steps);
            && (s.loop.Calling? ==> s.called !in s.past.dropped && !s.past.ended)
            && (s.links.attached.Some? ==> s.links.attached.value !in s.past.dropped)
            && (s.past.ended ==> s.loop.Exited?)
  {
    InitialInv(s0);
    RunKeepsInv(s0, steps);
  }

  /** The step with which another thread's destroy of a poll or of the ipc is over counts as such. */
  lemma DestroysAreCounted(s: Poller)
    requires Inv(s) && Enabled(s, Next(OnHost))
    ensures s.host.DetachFree? ==> s.subject in DoNext(s, OnHost).past.dropped && DoNext(s, OnHost).host.NoOp?
    ensures s.host.EndFreeIpc? ==> DoNext(s, OnHost).past.ended && DoNext(s, OnHost).host.NoOp?
  {
  }

  /** And none will run: what another thread destroyed stays destroyed. */
  lemma {:induction false} DestroyedForGood(s: Poller, steps: seq<Step>, p: nat)
    requires Inv(s) && Legal(s, steps)
    ensures p in s.past.dropped ==>
              var t := After(s, steps); p in t.past.dropped && !(t.loop.Calling? && t.called == p)
    ensures s.past.ended ==> After(s, steps).past.ended && !After(s, steps).loop.Calling?
    decreases |steps|
  {
    if steps != [] {
      StepKeepsInv(s, steps[0]);
      DestroyedForGood(Do(s, steps[0]), steps[1..], p);
    }
  }

  /** The signal is freed at most once, and exactly once when its thread and the destroy are over. */
  lemma SignalFreedExactlyOnce(s0: Poller, steps: seq<Step>)
    requires Initial(s0) && Legal(s0, steps)
    ensures var s := After(s0, steps);
            && s.past.signalFrees <= 1
            && (!s.mem.ipc && s.loop.Exited? ==> s.past.signalFrees == 1)
            && (s.past.signalFrees == 1 ==> s.loop.Exited?)
  {
    InitialInv(s0);
    RunKeepsInv(s0, steps);
  }

  // Finishing

  /** No operation is in progress, and the thread sleeps until a wake or has exited. */
  predicate Rests(s: Poller) {
    s.host.NoOp? && s.nested.NoOp? && (s.loop.Exited? || (s.loop.Sleeping? && !s.links.close))
  }

  function OpLeft(op: Op): nat {
    match op
    case NoOp => 0
    case AttachLock => 2
    case AttachSet => 1
    case DetachLock => 3
    case DetachSet => 2
    case DetachFree => 1
    case EndLock => 6
    case EndClear => 5
    case EndSend => 4
    case EndJoin => 3
    case EndFreeSignal => 2
    case EndDetach => 2
    case EndFreeIpc => 1
  }

  function LoopLeft(at: LoopPc): nat {
    match at
    case WakeSeen => 6
    case Dispatching => 5
    case Calling => 4
    case Unlocking => 3
    case Sleeping => 2
    case LoopDone => 1
    case Exited => 0
  }

  /** A step that brings whatever is in progress closer to its end: a callback returns, a dispatch calls none. */
  function LoopNext(s: Poller): Step {
    match s.loop
    case WakeSeen => LoopLock
    case Dispatching => Dispatch(false)
    case Calling => Return
    case Unlocking => LoopUnlock
    case LoopDone => LoopExit
    case _ => LoopClose
  }

  function Onwards(s: Poller): Step {
    if !s.nested.NoOp? then Next(OnPoll)
    else if s.loop.Calling? || s.loop.Dispatching? || s.loop.Unlocking? then LoopNext(s)
    else if !s.host.NoOp? && !(s.host.EndJoin? && !s.loop.Exited?) then Next(OnHost)
    else LoopNext(s)
  }

  /** An ipc that is being destroyed, or was. */
  predicate Doomed(s: Poller) {
    s.host.Ending() || s.nested.Ending() || s.links.close
  }

  /** Only who is at a point that holds the lock keeps others from it. */
  lemma LockIsFree(s: Poller)
    requires Inv(s)
    ensures !s.loop.Holds() ==> s.running.Free(OnHost)
    ensures !s.host.Holds() ==> s.running.Free(OnPoll)
  {
    match s.running.owner
    case None =>
    case Some(OnHost) =>
    case Some(OnPoll) =>
  }

  lemma NextGoesOn(s: Poller, t: Tid)
    requires Inv(s) && !s.OpOf(t).NoOp? && s.running.Free(t) && (s.OpOf(t).EndJoin? ==> s.loop.Exited?)
    ensures Enabled(s, Next(t))
    ensures var u := DoNext(s, t);
            && OpLeft(u.host) + OpLeft(u.nested) < OpLeft(s.host) + OpLeft(s.nested) && u.loop == s.loop
            && (Doomed(s) ==> Doomed(u))
  {
  }

  lemma LoopGoesOn(s: Poller)
    requires Inv(s) && s.nested.NoOp? && !s.loop.Exited? && (s.loop.Sleeping? ==> s.links.close)
    requires s.loop.WakeSeen? ==> s.running.Free(OnPoll)
    ensures Enabled(s, LoopNext(s))
    ensures var u := Do(s, LoopNext(s));
            LoopLeft(u.loop) < LoopLeft(s.loop) && u.host == s.host && u.nested == s.nested && (Doomed(s) ==> Doomed(u))
  {
  }

  lemma Prefix(s: Poller, step: Step, rest: seq<Step>) returns (steps: seq<Step>)
    requires Enabled(s, step) && Legal(Do(s, step), rest)
    ensures Legal(s, steps) && After(s, steps) == After(Do(s, step), rest)
  {
    steps := [step] + rest;
    assert steps[1..] == rest;
  }

  lemma {:induction false} RunToRest(s: Poller) returns (steps: seq<Step>)
    requires Inv(s)
    ensures Legal(s, steps) && Inv(After(s, steps)) && Rests(After(s, steps))
    ensures Doomed(s) ==> Doomed(After(s, steps))
    decreases OpLeft(s.host) + OpLeft(s.nested) + LoopLeft(s.loop)
  {
    if Rests(s) {
      steps := [];
    } else {
      var step := Onwards(s);
      LockIsFree(s);
      match step {
        case Next(t) => NextGoesOn(s, t);
        case _ => LoopGoesOn(s);
      }
      StepKeepsInv(s, step);
      var rest := RunToRest(Do(s, step));
      steps := Prefix(s, step, rest);
    }
  }

  /**
   From every reachable state whatever is in progress can finish, also where a
   destroy joins or a callback destroys its own ipc; and a destroy once begun
   leaves neither ipc nor signal.
   */
  lemma EveryoneCanFinish(s0: Poller, before: seq<Step>) returns (steps: seq<Step>)
    requires Initial(s0) && Legal(s0, before)
    ensures var s := After(s0, before);
            && Legal(s, steps) && Rests(After(s, steps))
            && (Doomed(s) ==> !After(s, steps).Alive(Ipc) && !After(s, steps).Alive(Signal))
  {
    InitialInv(s0);
    RunKeepsInv(s0, before);
    steps := RunToRest(After(s0, before));
    var t := After(After(s0, before), steps);
    if Doomed(t) {
      RestIsTheEnd(t);
    }
  }

  lemma RestIsTheEnd(s: Poller)
    requires Inv(s) && Rests(s) && Doomed(s)
    ensures !s.Alive(Ipc) && !s.Alive(Signal)
  {
  }

  /** A wake of a sleeping thread gets to a callback of the poll that is attached, if nobody else has the lock. */
  lemma WakeGetsToCallback(s: Poller)
    requires Inv(s) && s.loop.Sleeping? && s.running.Free(OnPoll) && s.links.reachable && s.links.attached.Some?
    ensures Enabled(s, LoopWake)
    ensures var woken := Do(s, LoopWake);
            && Enabled(woken, LoopLock)
            && var locked := Do(woken, LoopLock);
            && Enabled(locked, Dispatch(true))
            && var called := Do(locked, Dispatch(true));
            called.loop.Calling? && called.called == s.links.attached.value && called.running == Lock(Some(OnPoll), 1)
  {
  }

  // The signal and the ipc's poll as the source keeps them; each method runs its steps without a pause

  /** The next `k` steps of the operation of `t`. */
  function NextSteps(s: Poller, t: Tid, k: nat): Poller
    decreases k
  {
    if k == 0 then s else NextSteps(Do(s, Next(t)), t, k - 1)
  }

  class SignalObject {
    var poll: Option<nat> // The ipc's poll
    var ipc: bool         // The signal points to its ipc
    var detached: bool
    var close: bool       // The thread was told to close
    ghost var value: Poller

    ghost predicate Valid()
      reads this
    {
      Links(poll, ipc, detached, close) == value.links && Inv(value)
    }

    ghost method Advance(step: Step)
      requires Inv(value) && Enabled(value, step)
      modifies this`value
      ensures Inv(value) && value == Do(old(value), step)
    {
      StepKeepsInv(value, step);
      value := Do(value, step);
    }

    /** Makes a new poll the ipc's, under the lock. */
    method Attach(t: Tid, p: nat)
      requires Valid() && Enabled(value, Step.Attach(t)) && value.running.Free(t) && p == value.mem.next
      modifies this
      ensures Valid() && poll == Some(p) && value.OpOf(t).NoOp? && value.running == old(value).running
      ensures value == NextSteps(Do(old(value), Step.Attach(t)), t, 2)
    {
      Advance(Step.Attach(t));
      Advance(Next(t));
      poll := Some(p);
      Advance(Next(t));
    }

    /** Takes the poll away, under the lock, and frees it. */
    method Detach(t: Tid)
      requires Valid() && Enabled(value, Step.Detach(t)) && value.running.Free(t)
      modifies this
      ensures Valid() && poll.None? && value.OpOf(t).NoOp? && value.running == old(value).running
      ensures !value.Alive(PollOf(old(poll).value)) && (t.OnHost? ==> old(poll).value in value.past.dropped)
      ensures value == NextSteps(Do(old(value), Step.Detach(t)), t, 3)
    {
      Advance(Step.Detach(t));
      Advance(Next(t));
      poll := None;
      Advance(Next(t));
      Advance(Next(t));
    }

    /** Tells the thread to close, once it no longer reaches the ipc. */
    method Unreach(t: Tid)
      requires Valid() && Enabled(value, End(t)) && value.running.Free(t)
      modifies this
      ensures Valid() && !ipc && close && poll == old(poll) && value.running == old(value).running
      ensures value.OpOf(t) == if t.OnPoll? then EndDetach else EndJoin
      ensures value == NextSteps(Do(old(value), End(t)), t, 3)
    {
      Advance(End(t));
      Advance(Next(t));
      ipc := false;
      Advance(Next(t));
      close := true;
      Advance(Next(t));
    }

    /** The rest of a destroy from a callback, which leaves the signal to the thread. */
    method Leave()
      requires Valid() && value.nested.EndDetach?
      modifies this
      ensures Valid() && detached && value.nested.NoOp? && !value.Alive(Ipc) && value.Alive(Signal)
      ensures value == NextSteps(old(value), OnPoll, 2)
    {
      detached := true;
      Advance(Next(OnPoll));
      Advance(Next(OnPoll));
    }

    /** The rest of a destroy from another thread, once the thread is joined. */
    method Join()
      requires Valid() && value.host.EndJoin? && value.loop.Exited?
      modifies this`value
      ensures Valid() && value.host.NoOp? && !value.Alive(Ipc) && !value.Alive(Signal) && value.past.ended
      ensures value == NextSteps(old(value), OnHost, 3)
    {
      Advance(Next(OnHost));
      Advance(Next(OnHost));
      Advance(Next(OnHost));
    }

    /**
     A wake, up to the callback if it makes one: of the poll that is set, if its
     callback is, and if something that it asked for is ready.
     */
    method OnWake(shared: Ipc, callback: bool, asked: Events) returns (called: Option<nat>)
      requires Valid() && value.loop.WakeSeen? && value.running.Free(OnPoll) && shared.Valid()
      modifies this`value
      ensures Valid()
      ensures var wanted := callback && !Ready(shared.queue.value, shared.Value(), asked).None();
              called == if ipc && wanted then poll else None
      ensures value.loop == (if called.Some? then Calling else Unlocking)
      ensures called.Some? ==> value.called == called.value && value.Alive(PollOf(called.value))
    {
      called := None;
      Advance(LoopLock);
      if ipc && poll.Some? && callback {
        var ready := shared.Dispatch(asked);
        if !ready.None() {
          called := poll;
        }
      }
      Advance(Dispatch(called.Some?));
    }
  }
}
