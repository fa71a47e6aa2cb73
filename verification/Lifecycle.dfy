/**
 Who may still touch what: the worklet object, its detached thread, the host
 ends opened on its queue, and the order in which they let go of shared memory.
 */
module Lifecycle {
  import opened Options
  import opened QueueModel

  /** Memory that more than one thread reaches. */
  datatype Resource =
    | WorkletObject
    | State
    | Finished // The semaphore on the worklet thread's stack
    | Bare
    | QueueObject
    | Async    // The queue's handle on the worklet's loop
    | IpcObject(i: nat)
    | SignalObject(i: nat)

  /** An ipc, from its allocation to its release, when it leaves the map. */
  datatype IpcPc =
    | Creating  // Allocated, about to open the host end
    | Refused   // The host end was opened before; about to be released
    | Opened
    | FreesQueue // Closing gave up the last share; about to free the queue
    | ShutPort

  /** The host thread that owns the worklet object. */
  datatype HostPc =
    | Between      // Between calls on the worklet
    | AtBarrier    // In start, waiting for the worklet thread
    | PastBarrier  // In start, about to retire the barrier
    | Terminating  // In destroy, of a started worklet, about to take the state's lock
    | HoldingLock  // Holding it, having looked at `bare`
    | Posting
    | FreeingState // In destroy, of a worklet that never started
    | ClosingUv
    | LettingGo
    | HostFreesQueue
    | FreeingWorklet
    | HostDone

  /** The points of the worklet thread, in the order of its body. */
  datatype Point =
    | NotCreated
    | SettingUp
    | Publishing // About to store `bare` in the state
    | OpeningUv
    | Ready // At the barrier
    | Running
    | ClosingEnd
    | Clearing // About to clear `bare` in the state
    | ShuttingAsync
    | TearingDown
    | Exiting // About to call the exit callback
    | Waiting // For the host to destroy the worklet
    | Woken
    | DroppingQueue // About to give up its share of the queue
    | ThreadFreesQueue
    | FreeingOwnState
    | ThreadDone
  {
    function Rank(): nat {
      match this
      case NotCreated => 0
      case SettingUp => 1
      case Publishing => 2
      case OpeningUv => 3
      case Ready => 4
      case Running => 5
      case ClosingEnd => 6
      case Clearing => 7
      case ShuttingAsync => 8
      case TearingDown => 9
      case Exiting => 10
      case Waiting => 11
      case Woken => 12
      case DroppingQueue => 13
      case ThreadFreesQueue => 14
      case FreeingOwnState => 15
      case ThreadDone => 16
    }

    /** At or after `first`, and at or before `last`. */
    predicate Within(first: Point, last: Point) {
      first.Rank() <= Rank() <= last.Rank()
    }
  }

  /** Times each object was released, and the exit callback called. */
  datatype Counts = Counts(worklet: nat, state: nat, queue: nat, exits: nat)

  /** The objects that are allocated. */
  datatype Objects = Objects(worklet: bool, state: bool, finished: bool, bare: bool, queue: bool, async: bool)

  datatype Life = Life(
    alive: Objects,
    ipcs: map<nat, IpcPc>,      // Those in the map are alive, with their signals
    uv: EndState,
    thread: EndState,
    destroyed: bool,
    owner: Option<nat>,         // The ipc that the queue's signal callback reaches
    bareSet: bool,              // The state's `bare` is not NULL
    locked: bool,               // A host call holds the state's lock
    seen: bool,                 // And found `bare` not NULL, which it may go on to use
    callers: nat,               // Host calls that are to take or hold that lock
    posted: bool,
    host: HostPc,
    worker: Point,
    counts: Counts
  ) {
    predicate Alive(r: Resource) {
      match r
      case WorkletObject => alive.worklet
      case State => alive.state
      case Finished => alive.finished
      case Bare => alive.bare
      case QueueObject => alive.queue
      case Async => alive.async
      case IpcObject(i) => i in ipcs
      case SignalObject(i) => i in ipcs
    }

    predicate Unowned() {
      destroyed && (thread.Idle? || thread.Closed?)
    }

    /** The worklet may be passed to any call. */
    predicate Usable() {
      host.Between? || host.AtBarrier? || host.PastBarrier?
    }

    predicate Started() {
      !worker.NotCreated?
    }
  }

  function Init(): Life {
    Life(Objects(true, true, false, false, true, false), map[], Idle, Idle, false, None, false, false, false, 0, false,
         Between, NotCreated, Counts(0, 0, 0, 0))
  }

  datatype Step =
    | IpcCreate(i: nat)
    | IpcOpen(i: nat)
    | IpcRelease(i: nat)
    | IpcUse(i: nat)
    | IpcEnd(i: nat)
    | IpcClose(i: nat)
    | IpcFreeQueue(i: nat)
    | CallEnter           // A suspend, resume, wakeup or terminate
    | CallLock
    | CallBody
    | Start(created: bool)
    | Destroy
    | HostNext            // The host's next step in start or destroy
    | Barrier             // Both sides leave the barrier
    | ThreadNext
    | ThreadUsesQueue(end: bool)
    | ThreadLocks         // The idle and resume handlers

  /** The worklet thread can take its next step. */
  predicate ThreadGoes(s: Life) {
    && !s.worker.NotCreated? && !s.worker.Ready? && !s.worker.ThreadDone?
    && (s.worker.Publishing? || s.worker.Clearing? ==> !s.locked)
    && (s.worker.Waiting? ==> s.posted)
  }

  predicate Enabled(s: Life, step: Step) {
    match step
    case IpcCreate(i) => i !in s.ipcs && s.Usable()
    case IpcOpen(i) => i in s.ipcs && s.ipcs[i].Creating?
    case IpcRelease(i) => i in s.ipcs && (s.ipcs[i].Refused? || s.ipcs[i].ShutPort?)
    case IpcUse(i) => i in s.ipcs && s.ipcs[i].Opened?
    case IpcEnd(i) => i in s.ipcs && s.ipcs[i].Opened?
    case IpcClose(i) => i in s.ipcs && s.ipcs[i].Opened?
    case IpcFreeQueue(i) => i in s.ipcs && s.ipcs[i].FreesQueue?
    case CallEnter => s.Usable()
    case CallLock => s.callers > 0 && !s.locked
    case CallBody => s.callers > 0 && s.locked
    case Start(_) => s.host.Between? && !s.Started()
    case Destroy => s.host.Between? && s.callers == 0 && forall i :: i in s.ipcs ==> !s.ipcs[i].Creating?
    case HostNext =>
      match s.host {
        case PastBarrier => true
        case Terminating => !s.locked
        case HoldingLock => true
        case Posting => true
        case FreeingState => true
        case ClosingUv => true
        case LettingGo => true
        case HostFreesQueue => true
        case FreeingWorklet => true
        case _ => false
      }
    case Barrier => s.host.AtBarrier? && s.worker.Ready?
    case ThreadNext => ThreadGoes(s)
    case ThreadUsesQueue(_) => s.worker.Within(Running, TearingDown)
    case ThreadLocks => s.worker.Running? && !s.locked
  }

  /** Running the host's signal callback reaches the ipc that opened the host end. */
  function SignalsHost(s: Life): set<Resource> {
    if s.thread.Listening() && s.owner.Some? then {IpcObject(s.owner.value), SignalObject(s.owner.value)} else {}
  }

  function SignalsWorklet(s: Life): set<Resource> {
    if s.uv.Listening() then {Async} else {}
  }

  /** What a call that has tested `bare` goes on to use, whether or not it is still there. */
  function UsesSeen(s: Life): set<Resource> {
    if s.seen then {Bare} else {}
  }

  /** What a step reads, writes or calls into. */
  function Touches(s: Life, step: Step): set<Resource> {
    match step
    case IpcCreate(_) => {WorkletObject}
    case IpcOpen(i) => {WorkletObject, QueueObject, IpcObject(i), SignalObject(i)}
    case IpcRelease(i) => {IpcObject(i), SignalObject(i)}
    case IpcUse(i) => {IpcObject(i), SignalObject(i), QueueObject} + SignalsWorklet(s)
    case IpcEnd(i) => {IpcObject(i), SignalObject(i), QueueObject} + SignalsWorklet(s)
    case IpcClose(i) => {IpcObject(i), SignalObject(i), QueueObject} + SignalsWorklet(s)
    case IpcFreeQueue(i) => {IpcObject(i), SignalObject(i), QueueObject}
    case CallEnter => {WorkletObject, State}
    case CallLock => {State}
    case CallBody => {State} + UsesSeen(s)
    case Start(_) => {WorkletObject}
    case Destroy => {WorkletObject}
    case HostNext =>
      (match s.host
       case PastBarrier => {WorkletObject}
       case Terminating => {WorkletObject, State}
       case HoldingLock => {State} + UsesSeen(s)
       case Posting => {WorkletObject, Finished}
       case FreeingState => {WorkletObject, State}
       case ClosingUv => {WorkletObject, QueueObject} + SignalsHost(s)
       case LettingGo => {WorkletObject, QueueObject}
       case HostFreesQueue => {QueueObject}
       case FreeingWorklet => {WorkletObject}
       case _ => {})
    case Barrier => {WorkletObject}
    case ThreadNext =>
      (match s.worker
       case SettingUp => {WorkletObject, State}
       case Publishing => {State, Bare}
       case OpeningUv => {WorkletObject, QueueObject, Bare}
       case Running => {State, Bare}
       case ClosingEnd => {QueueObject} + SignalsHost(s)
       case Clearing => {State}
       case ShuttingAsync => {QueueObject, Async}
       case TearingDown => {Bare, State}
       case Exiting => {State}
       case Waiting => {Finished}
       case Woken => {Finished}
       case DroppingQueue => {QueueObject}
       case ThreadFreesQueue => {QueueObject}
       case FreeingOwnState => {State}
       case _ => {})
    case ThreadUsesQueue(_) => {QueueObject} + SignalsHost(s)
    case ThreadLocks => {State, Bare}
  }

  /** Frees the queue. */
  function FreeQueue(s: Life): Life {
    s.(alive := s.alive.(queue := false), counts := s.counts.(queue := s.counts.queue + 1))
  }

  function DoOpen(s: Life, i: nat): Life {
    if s.thread.Idle? then s.(thread := Open, owner := Some(i), ipcs := s.ipcs[i := Opened])
    else s.(ipcs := s.ipcs[i := Refused])
  }

  function DoClose(s: Life, i: nat): Life {
    var closed := s.(thread := Closed);
    closed.(ipcs := s.ipcs[i := if closed.Unowned() then FreesQueue else ShutPort])
  }

  /** Where the host goes next in start or destroy. */
  function HostFollowing(s: Life): HostPc {
    match s.host
    case PastBarrier => Between
    case Terminating => HoldingLock
    case HoldingLock => Posting
    case Posting => FreeingWorklet
    case FreeingState => ClosingUv
    case ClosingUv => LettingGo
    case LettingGo => if s.(destroyed := true).Unowned() then HostFreesQueue else FreeingWorklet
    case HostFreesQueue => FreeingWorklet
    case FreeingWorklet => HostDone
    case _ => s.host
  }

  function HostReleased(at: HostPc, alive: Objects): Objects {
    match at
    case FreeingState => alive.(state := false)
    case HostFreesQueue => alive.(queue := false)
    case FreeingWorklet => alive.(worklet := false)
    case _ => alive
  }

  function HostRecorded(at: HostPc, counts: Counts): Counts {
    match at
    case FreeingState => counts.(state := counts.state + 1)
    case HostFreesQueue => counts.(queue := counts.queue + 1)
    case FreeingWorklet => counts.(worklet := counts.worklet + 1)
    case _ => counts
  }

  function DoHost(s: Life): Life {
    s.(host := HostFollowing(s),
       alive := HostReleased(s.host, s.alive),
       counts := HostRecorded(s.host, s.counts),
       uv := if s.host.ClosingUv? then Closed else s.uv,
       destroyed := s.destroyed || s.host.LettingGo?,
       locked := s.host.Terminating? || (s.locked && !s.host.HoldingLock?),
       seen := if s.host.Terminating? then s.bareSet else s.seen && !s.host.HoldingLock?,
       posted := s.posted || s.host.Posting?)
  }

  /** Where the worklet thread goes next. */
  function Following(s: Life): Point {
    match s.worker
    case NotCreated => NotCreated
    case SettingUp => Publishing
    case Publishing => OpeningUv
    case OpeningUv => Ready
    case Ready => Ready
    case Running => ClosingEnd
    case ClosingEnd => Clearing
    case Clearing => ShuttingAsync
    case ShuttingAsync => TearingDown
    case TearingDown => Exiting
    case Exiting => Waiting
    case Waiting => Woken
    case Woken => DroppingQueue
    case DroppingQueue => if s.(destroyed := true).Unowned() then ThreadFreesQueue else FreeingOwnState
    case ThreadFreesQueue => FreeingOwnState
    case FreeingOwnState => ThreadDone
    case ThreadDone => ThreadDone
  }

  /** What the worklet thread makes and releases at point `at`. */
  function Made(at: Point, alive: Objects): Objects {
    match at
    case SettingUp => alive.(finished := true, bare := true)
    case OpeningUv => alive.(async := true)
    case ShuttingAsync => alive.(async := false)
    case TearingDown => alive.(bare := false)
    case Woken => alive.(finished := false)
    case ThreadFreesQueue => alive.(queue := false)
    case FreeingOwnState => alive.(state := false)
    case _ => alive
  }

  function Recorded(at: Point, counts: Counts): Counts {
    match at
    case Exiting => counts.(exits := counts.exits + 1)
    case ThreadFreesQueue => counts.(queue := counts.queue + 1)
    case FreeingOwnState => counts.(state := counts.state + 1)
    case _ => counts
  }

  function DoThread(s: Life): Life {
    s.(worker := Following(s),
       alive := Made(s.worker, s.alive),
       counts := Recorded(s.worker, s.counts),
       uv := if s.worker.OpeningUv? then Open else if s.worker.ClosingEnd? then Closed else s.uv,
       bareSet := s.worker.Publishing? || (s.bareSet && !s.worker.Clearing?),
       destroyed := s.destroyed || s.worker.DroppingQueue?)
  }

  function Do(s: Life, step: Step): Life
    requires Enabled(s, step)
  {
    match step
    case IpcCreate(i) => s.(ipcs := s.ipcs[i := Creating])
    case IpcOpen(i) => DoOpen(s, i)
    case IpcRelease(i) => s.(ipcs := s.ipcs - {i})
    case IpcUse(_) => s
    case IpcEnd(_) => s.(thread := Ended)
    case IpcClose(i) => DoClose(s, i)
    case IpcFreeQueue(i) => FreeQueue(s).(ipcs := s.ipcs[i := ShutPort])
    case CallEnter => s.(callers := s.callers + 1)
    case CallLock => s.(locked := true, seen := s.bareSet)
    case CallBody => s.(locked := false, seen := false, callers := s.callers - 1)
    case Start(created) => if created then s.(host := AtBarrier, worker := SettingUp) else s
    case Destroy => s.(host := if s.Started() then Terminating else FreeingState)
    case HostNext => DoHost(s)
    case Barrier => s.(host := PastBarrier, worker := Running)
    case ThreadNext => DoThread(s)
    case ThreadUsesQueue(end) => if end && s.uv.Open? then s.(uv := Ended) else s
    case ThreadLocks => s
  }

  /** The steps here settle who holds and who frees the queue just as its own sections do: at an open, */
  lemma OpenFollowsQueue(s: Life, q: Queue, i: nat)
    requires q.uv == s.uv && q.thread == s.thread && q.destroyed == s.destroyed
    ensures OpenThread(q).1 == DoOpen(s, i).ipcs[i].Opened? && OpenThread(q).0.thread == DoOpen(s, i).thread
  {
  }

  /** at a close of the host end, */
  lemma CloseFollowsQueue(s: Life, q: Queue, i: nat)
    requires q.uv == s.uv && q.thread == s.thread && q.destroyed == s.destroyed
    ensures Advance(q, End.Thread, Closed).1 == DoClose(s, i).ipcs[i].FreesQueue?
    ensures Advance(q, End.Thread, Closed).0.thread == DoClose(s, i).thread
  {
  }

  /** when the worklet's thread gives up its share, */
  lemma ThreadDropFollowsQueue(s: Life, q: Queue)
    requires q.uv == s.uv && q.thread == s.thread && q.destroyed == s.destroyed && s.worker.DroppingQueue?
    ensures QueueModel.Destroy(q).1 <==> DoThread(s).worker.ThreadFreesQueue?
  {
  }

  /** and when the host gives it up for a worklet that never started. */
  lemma HostDropFollowsQueue(s: Life, q: Queue)
    requires q.uv == s.uv && q.thread == s.thread && q.destroyed == s.destroyed && s.host.LettingGo?
    ensures QueueModel.Destroy(q).1 <==> DoHost(s).host.HostFreesQueue?
  {
  }

  /** The ends move in the steps here as they do in the queue's sections. */
  lemma HalfCloseFollowsQueue(s: Life, q: Queue, i: nat)
    requires q.thread == s.thread && s.thread.Listening() && Enabled(s, IpcEnd(i))
    ensures Advance(q, End.Thread, Ended).0.thread == Do(s, IpcEnd(i)).thread
  {
  }

  lemma ThreadEndsFollowQueue(s: Life, q: Queue)
    requires q.uv == s.uv
    ensures s.worker.OpeningUv? ==> OpenUv(q).uv == DoThread(s).uv
    ensures s.worker.ClosingEnd? ==> Advance(q, End.Uv, Closed).0.uv == DoThread(s).uv
  {
  }

  lemma HostEndFollowsQueue(s: Life, q: Queue)
    requires q.uv == s.uv && s.host.ClosingUv?
    ensures Advance(q, End.Uv, Closed).0.uv == DoHost(s).uv
  {
  }

  lemma UvHalfCloseFollowsQueue(s: Life, q: Queue)
    requires q.uv == s.uv && s.uv.Listening() && Enabled(s, ThreadUsesQueue(true))
    ensures Advance(q, End.Uv, Ended).0.uv == Do(s, ThreadUsesQueue(true)).uv
  {
  }

  // Invariants

  /** Who has reached which point, and what that says of the other side. */
  ghost predicate Paired(s: Life) {
    && (s.host.AtBarrier? || s.host.PastBarrier? || s.host.Terminating? || s.host.HoldingLock? || s.host.Posting? ==>
          !s.worker.NotCreated?)
    && (s.worker.Within(SettingUp, Ready) ==> s.host.AtBarrier?)
    && (s.host.AtBarrier? ==> s.worker.Within(SettingUp, Ready))
    && (s.host.FreeingState? || s.host.ClosingUv? || s.host.LettingGo? || s.host.HostFreesQueue? ==> s.worker.NotCreated?)
    && (s.posted ==> s.host.FreeingWorklet? || s.host.HostDone?)
    && (s.Started() && (s.host.FreeingWorklet? || s.host.HostDone?) ==> s.posted)
    && (s.worker.Rank() >= Woken.Rank() ==> s.posted)
    && (s.callers > 0 ==> s.Usable())
    && (s.locked ==> s.callers > 0 || s.host.HoldingLock?)
    && (s.host.HoldingLock? ==> s.locked)
    && (s.seen <==> s.locked && s.bareSet)
  }

  /** The host has given up the state of a worklet that never started. */
  predicate HostDroppedState(s: Life) {
    !s.Started() && !s.Usable() && !s.host.FreeingState?
  }

  /** The host has given up the queue's share of a worklet that never started. */
  predicate HostDroppedQueue(s: Life) {
    !s.Started() && (s.host.HostFreesQueue? || s.host.FreeingWorklet? || s.host.HostDone?)
  }

  ghost predicate HostMatches(s: Life) {
    && (s.alive.worklet <==> !s.host.HostDone?)
    && (s.alive.state <==> !s.worker.ThreadDone? && !HostDroppedState(s))
    && (s.destroyed <==> s.worker.Rank() >= ThreadFreesQueue.Rank() || HostDroppedQueue(s))
    && (s.destroyed || s.host.LettingGo? ==> s.uv.Closed?)
  }

  ghost predicate ThreadMatches(s: Life) {
    && (s.alive.finished <==> s.worker.Within(Publishing, Woken))
    && (s.alive.bare <==> s.worker.Within(Publishing, TearingDown))
    && (s.alive.async <==> s.worker.Within(Ready, ShuttingAsync))
    && (s.bareSet <==> s.worker.Within(OpeningUv, Clearing))
    && (s.uv.Listening() <==> s.worker.Within(Ready, ClosingEnd))
    && (s.worker.Rank() >= Clearing.Rank() ==> s.uv.Closed?)
  }

  /** The one ipc that holds the host's share of the queue. */
  ghost predicate Owned(s: Life) {
    && (s.thread.Idle? <==> s.owner.None?)
    && (s.thread.Listening() <==>
          s.owner.Some? && s.owner.value in s.ipcs && s.ipcs[s.owner.value].Opened?)
    && (forall i :: i in s.ipcs && (s.ipcs[i].Opened? || s.ipcs[i].FreesQueue?) ==> s.owner == Some(i))
    && (forall i :: i in s.ipcs && s.ipcs[i].Creating? ==> s.Usable())
  }

  predicate IpcFreesQueue(s: Life) {
    s.owner.Some? && s.owner.value in s.ipcs && s.ipcs[s.owner.value].FreesQueue?
  }

  /** Some thread is past the step that found the last share gone, and has yet to free the queue. */
  predicate FreePending(s: Life) {
    s.worker.ThreadFreesQueue? || s.host.HostFreesQueue? || IpcFreesQueue(s)
  }

  ghost predicate QueueMatches(s: Life) {
    && (s.alive.queue <==> !s.Unowned() || FreePending(s))
    && (FreePending(s) ==> s.Unowned())
    && !(s.worker.ThreadFreesQueue? && IpcFreesQueue(s))
    && !(s.host.HostFreesQueue? && IpcFreesQueue(s))
  }

  ghost predicate CountsMatch(s: Life) {
    && s.counts.worklet == (if s.alive.worklet then 0 else 1)
    && s.counts.state == (if s.alive.state then 0 else 1)
    && s.counts.queue == (if s.alive.queue then 0 else 1)
    && s.counts.exits == (if s.worker.Rank() > Exiting.Rank() then 1 else 0)
  }

  ghost predicate Inv(s: Life) {
    Paired(s) && HostMatches(s) && ThreadMatches(s) && Owned(s) && QueueMatches(s) && CountsMatch(s)
  }

  lemma InitInv()
    ensures Inv(Init())
  {
  }

  predicate OfIpc(step: Step) {
    step.IpcCreate? || step.IpcOpen? || step.IpcRelease? || step.IpcUse? || step.IpcEnd? || step.IpcClose?
    || step.IpcFreeQueue?
  }

  lemma OpenLeavesWorklet(s: Life, i: nat)
    ensures var t := DoOpen(s, i); t == s.(ipcs := t.ipcs, thread := t.thread, owner := t.owner)
  {
  }

  lemma CloseLeavesWorklet(s: Life, i: nat)
    ensures var t := DoClose(s, i); t == s.(ipcs := t.ipcs, thread := t.thread)
  {
  }

  /** The steps of an ipc leave the worklet's own state alone. */
  lemma IpcsLeaveWorklet(s: Life, step: Step)
    requires Enabled(s, step) && OfIpc(step)
    ensures var t := Do(s, step);
            && t.worker == s.worker && t.host == s.host && t.uv == s.uv && t.destroyed == s.destroyed
            && t.bareSet == s.bareSet && t.posted == s.posted
            && t.locked == s.locked && t.seen == s.seen && t.callers == s.callers
            && t.alive == s.alive.(queue := t.alive.queue)
    ensures !step.IpcFreeQueue? ==> Do(s, step).alive == s.alive && Do(s, step).counts == s.counts
  {
    match step
    case IpcOpen(i) => OpenLeavesWorklet(s, i);
    case IpcClose(i) => CloseLeavesWorklet(s, i);
    case _ =>
  }

  predicate OfCall(step: Step) {
    step.CallEnter? || step.CallLock? || step.CallBody? || step.Destroy?
  }

  /** And so do the host's calls, but for the lock, the callers and where the host is. */
  lemma CallsLeaveWorklet(s: Life, step: Step)
    requires Enabled(s, step) && OfCall(step)
    ensures var t := Do(s, step); t == s.(locked := t.locked, seen := t.seen, callers := t.callers, host := t.host)
  {
  }

  lemma ThreadKeepsPaired(s: Life)
    requires Inv(s) && ThreadGoes(s)
    ensures Paired(DoThread(s))
  {
  }

  lemma HostKeepsPaired(s: Life)
    requires Inv(s) && Enabled(s, HostNext)
    ensures Paired(DoHost(s))
  {
  }

  lemma StepKeepsPaired(s: Life, step: Step)
    requires Inv(s) && Enabled(s, step)
    ensures Paired(Do(s, step))
  {
    if OfIpc(step) {
      IpcsLeaveWorklet(s, step);
    } else if OfCall(step) {
      CallsLeaveWorklet(s, step);
    } else {
      match step
      case HostNext => HostKeepsPaired(s);
      case ThreadNext => ThreadKeepsPaired(s);
      case _ =>
    }
  }

  lemma ThreadKeepsHost(s: Life)
    requires Inv(s) && ThreadGoes(s)
    ensures HostMatches(DoThread(s))
  {
  }

  lemma HostKeepsHost(s: Life)
    requires Inv(s) && Enabled(s, HostNext)
    ensures HostMatches(DoHost(s))
  {
  }

  lemma StepKeepsHost(s: Life, step: Step)
    requires Inv(s) && Enabled(s, step)
    ensures HostMatches(Do(s, step))
  {
    if OfIpc(step) {
      IpcsLeaveWorklet(s, step);
    } else if OfCall(step) {
      CallsLeaveWorklet(s, step);
    } else {
      match step
      case HostNext => HostKeepsHost(s);
      case ThreadNext => ThreadKeepsHost(s);
      case _ =>
    }
  }

  lemma ThreadKeepsThread(s: Life)
    requires ThreadMatches(s) && ThreadGoes(s)
    ensures ThreadMatches(DoThread(s))
  {
  }

  lemma HostKeepsThread(s: Life)
    requires Inv(s) && Enabled(s, HostNext)
    ensures ThreadMatches(DoHost(s))
  {
  }

  lemma StepKeepsThread(s: Life, step: Step)
    requires Inv(s) && Enabled(s, step)
    ensures ThreadMatches(Do(s, step))
  {
    if OfIpc(step) {
      IpcsLeaveWorklet(s, step);
    } else if OfCall(step) {
      CallsLeaveWorklet(s, step);
    } else {
      match step
      case HostNext => HostKeepsThread(s);
      case ThreadNext => ThreadKeepsThread(s);
      case _ =>
    }
  }

  lemma WorkletLeavesIpcs(s: Life)
    requires Enabled(s, ThreadNext)
    ensures var t := DoThread(s);
            t.ipcs == s.ipcs && t.thread == s.thread && t.owner == s.owner && t.host == s.host
  {
  }

  lemma HostLeavesIpcs(s: Life)
    requires Enabled(s, HostNext)
    ensures var t := DoHost(s);
            t.ipcs == s.ipcs && t.thread == s.thread && t.owner == s.owner && (s.Usable() ==> t.Usable())
  {
  }

  lemma OthersLeaveIpcs(s: Life, step: Step)
    requires Enabled(s, step) && !OfIpc(step)
    ensures var t := Do(s, step);
            && t.ipcs == s.ipcs && t.thread == s.thread && t.owner == s.owner
            && (s.Usable() && !step.Destroy? ==> t.Usable())
  {
    match step
    case HostNext => HostLeavesIpcs(s);
    case ThreadNext => WorkletLeavesIpcs(s);
    case _ =>
  }

  lemma OpenKeepsOwned(s: Life, i: nat)
    requires Owned(s) && i in s.ipcs && s.ipcs[i].Creating?
    ensures Owned(DoOpen(s, i))
  {
  }

  lemma CloseKeepsOwned(s: Life, i: nat)
    requires Owned(s) && i in s.ipcs && s.ipcs[i].Opened?
    ensures Owned(DoClose(s, i))
  {
  }

  lemma IpcKeepsOwned(s: Life, step: Step)
    requires Owned(s) && Enabled(s, step) && OfIpc(step)
    ensures Owned(Do(s, step))
  {
    match step
    case IpcOpen(i) => OpenKeepsOwned(s, i);
    case IpcClose(i) => CloseKeepsOwned(s, i);
    case _ =>
  }

  lemma StepKeepsOwned(s: Life, step: Step)
    requires Inv(s) && Enabled(s, step)
    ensures Owned(Do(s, step))
  {
    if OfIpc(step) {
      IpcKeepsOwned(s, step);
    } else {
      OthersLeaveIpcs(s, step);
    }
  }

  lemma ThreadKeepsQueue(s: Life)
    requires Inv(s) && ThreadGoes(s)
    ensures QueueMatches(DoThread(s))
  {
  }

  lemma HostKeepsQueue(s: Life)
    requires Paired(s) && HostMatches(s) && Owned(s) && QueueMatches(s) && Enabled(s, HostNext)
    ensures QueueMatches(DoHost(s))
  {
  }

  lemma OpenKeepsQueue(s: Life, i: nat)
    requires Owned(s) && QueueMatches(s) && i in s.ipcs && s.ipcs[i].Creating?
    requires HostMatches(s) && Paired(s)
    ensures QueueMatches(DoOpen(s, i))
  {
  }

  lemma CloseKeepsQueue(s: Life, i: nat)
    requires Owned(s) && QueueMatches(s) && i in s.ipcs && s.ipcs[i].Opened?
    requires HostMatches(s) && Paired(s)
    ensures QueueMatches(DoClose(s, i))
  {
  }

  lemma IpcKeepsQueue(s: Life, step: Step)
    requires Inv(s) && Enabled(s, step) && OfIpc(step)
    ensures QueueMatches(Do(s, step))
  {
    match step
    case IpcOpen(i) => OpenKeepsQueue(s, i);
    case IpcClose(i) => CloseKeepsQueue(s, i);
    case _ =>
  }

  lemma StepKeepsQueue(s: Life, step: Step)
    requires Inv(s) && Enabled(s, step)
    ensures QueueMatches(Do(s, step))
  {
    if OfIpc(step) {
      IpcKeepsQueue(s, step);
    } else {
      match step
      case HostNext => HostKeepsQueue(s);
      case ThreadNext => ThreadKeepsQueue(s);
      case _ =>
    }
  }

  lemma ThreadKeepsCounts(s: Life)
    requires HostMatches(s) && QueueMatches(s) && CountsMatch(s) && Paired(s) && ThreadGoes(s)
    ensures CountsMatch(DoThread(s))
  {
  }

  lemma HostKeepsCounts(s: Life)
    requires Inv(s) && Enabled(s, HostNext)
    ensures CountsMatch(DoHost(s))
  {
  }

  lemma FreeKeepsCounts(s: Life, i: nat)
    requires Inv(s) && Enabled(s, IpcFreeQueue(i))
    ensures CountsMatch(Do(s, IpcFreeQueue(i)))
  {
    assert s.alive.queue;
  }

  lemma StepKeepsCounts(s: Life, step: Step)
    requires Inv(s) && Enabled(s, step)
    ensures CountsMatch(Do(s, step))
  {
    if step.IpcFreeQueue? {
      FreeKeepsCounts(s, step.i);
    } else if OfIpc(step) {
      IpcsLeaveWorklet(s, step);
    } else if OfCall(step) {
      CallsLeaveWorklet(s, step);
    } else {
      match step
      case HostNext => HostKeepsCounts(s);
      case ThreadNext => ThreadKeepsCounts(s);
      case _ =>
    }
  }

  lemma StepKeepsInv(s: Life, step: Step)
    requires Inv(s) && Enabled(s, step)
    ensures Inv(Do(s, step))
  {
    StepKeepsPaired(s, step);
    StepKeepsHost(s, step);
    StepKeepsThread(s, step);
    StepKeepsOwned(s, step);
    StepKeepsQueue(s, step);
    StepKeepsCounts(s, step);
  }

  ghost predicate Legal(s: Life, steps: seq<Step>)
    decreases |steps|
  {
    steps == [] || (Enabled(s, steps[0]) && Legal(Do(s, steps[0]), steps[1..]))
  }

  ghost function After(s: Life, steps: seq<Step>): Life
    requires Legal(s, steps)
    decreases |steps|
  {
    if steps == [] then s else After(Do(s, steps[0]), steps[1..])
  }

  lemma {:induction false} RunKeepsInv(s: Life, steps: seq<Step>)
    requires Inv(s) && Legal(s, steps)
    ensures Inv(After(s, steps))
    decreases |steps|
  {
    if steps != [] {
      StepKeepsInv(s, steps[0]);
      RunKeepsInv(Do(s, steps[0]), steps[1..]);
    }
  }

  // Main results

  lemma ThreadTouchesAlive(s: Life, r: Resource)
    requires Inv(s) && ThreadGoes(s) && r in Touches(s, ThreadNext)
    ensures s.Alive(r)
  {
  }

  lemma HostTouchesAlive(s: Life, r: Resource)
    requires Inv(s) && Enabled(s, HostNext) && r in Touches(s, HostNext)
    ensures s.Alive(r)
  {
  }

  lemma IpcTouchesAlive(s: Life, step: Step, r: Resource)
    requires Inv(s) && Enabled(s, step) && OfIpc(step) && r in Touches(s, step)
    ensures s.Alive(r)
  {
  }

  lemma TouchesAlive(s: Life, step: Step, r: Resource)
    requires Inv(s) && Enabled(s, step) && r in Touches(s, step)
    ensures s.Alive(r)
  {
    if OfIpc(step) {
      IpcTouchesAlive(s, step, r);
    } else {
      match step
      case HostNext => HostTouchesAlive(s, r);
      case ThreadNext => ThreadTouchesAlive(s, r);
      case _ =>
    }
  }

  /** In every interleaving, each step touches only memory that has not been released. */
  lemma NothingUsedAfterRelease(steps: seq<Step>, step: Step)
    requires Legal(Init(), steps) && Enabled(After(Init(), steps), step)
    ensures var s := After(Init(), steps); forall r :: r in Touches(s, step) ==> s.Alive(r)
  {
    InitInv();
    RunKeepsInv(Init(), steps);
    var s := After(Init(), steps);
    forall r | r in Touches(s, step)
      ensures s.Alive(r)
    {
      TouchesAlive(s, step, r);
    }
  }

  /** Whether a step frees the queue. */
  predicate Frees(s: Life, step: Step) {
    || step.IpcFreeQueue?
    || (step.HostNext? && s.host.HostFreesQueue?)
    || (step.ThreadNext? && s.worker.ThreadFreesQueue?)
  }

  /** From the step that finds the last share gone on, the one thing anyone does with the queue is free it. */
  lemma NoQueueUseOnceUnowned(steps: seq<Step>, step: Step)
    requires Legal(Init(), steps) && Enabled(After(Init(), steps), step)
    ensures var s := After(Init(), steps);
            s.Unowned() && QueueObject in Touches(s, step) ==>
              Frees(s, step) && s.Alive(QueueObject) && !Do(s, step).Alive(QueueObject)
  {
    InitInv();
    RunKeepsInv(Init(), steps);
    var s := After(Init(), steps);
    if s.Unowned() && QueueObject in Touches(s, step) {
      OnlyFreeTouches(s, step);
    }
  }

  lemma ThreadOnlyFrees(s: Life)
    requires Inv(s) && ThreadGoes(s) && s.Unowned() && QueueObject in Touches(s, ThreadNext)
    ensures s.worker.ThreadFreesQueue? && s.alive.queue && !DoThread(s).alive.queue
  {
  }

  lemma HostOnlyFrees(s: Life)
    requires Inv(s) && Enabled(s, HostNext) && s.Unowned() && QueueObject in Touches(s, HostNext)
    ensures s.host.HostFreesQueue? && s.alive.queue && !DoHost(s).alive.queue
  {
  }

  lemma IpcOnlyFrees(s: Life, step: Step)
    requires Inv(s) && Enabled(s, step) && OfIpc(step) && s.Unowned() && QueueObject in Touches(s, step)
    ensures step.IpcFreeQueue? && s.alive.queue && !Do(s, step).alive.queue
  {
  }

  lemma OnlyFreeTouches(s: Life, step: Step)
    requires Inv(s) && Enabled(s, step) && s.Unowned() && QueueObject in Touches(s, step)
    ensures Frees(s, step) && s.Alive(QueueObject) && !Do(s, step).Alive(QueueObject)
  {
    if OfIpc(step) {
      IpcOnlyFrees(s, step);
    } else {
      match step
      case HostNext => HostOnlyFrees(s);
      case ThreadNext => ThreadOnlyFrees(s);
      case _ =>
    }
  }

  /** Nothing is released twice, and once everyone is done everything was released once and the exit callback called. */
  lemma ReleasedExactlyOnce(steps: seq<Step>)
    requires Legal(Init(), steps)
    ensures var s := After(Init(), steps);
            && s.counts.worklet <= 1 && s.counts.state <= 1 && s.counts.queue <= 1 && s.counts.exits <= 1
            && (s.host.HostDone? && s.ipcs == map[] && (s.worker.NotCreated? || s.worker.ThreadDone?) ==>
                  s.counts == Counts(1, 1, 1, if s.Started() then 1 else 0))
  {
    InitInv();
    RunKeepsInv(Init(), steps);
    var s := After(Init(), steps);
    if s.host.HostDone? && s.ipcs == map[] && (s.worker.NotCreated? || s.worker.ThreadDone?) {
      CountsAtTheEnd(s);
    }
  }

  lemma CountsAtTheEnd(s: Life)
    requires Inv(s)
    requires s.host.HostDone? && s.ipcs == map[] && (s.worker.NotCreated? || s.worker.ThreadDone?)
    ensures s.counts == Counts(1, 1, 1, if s.Started() then 1 else 0)
  {
  }

  /** The host cannot release the worklet object before the thread is past its last use of it, at the barrier. */
  lemma WorkletOutlivesBarrier(steps: seq<Step>)
    requires Legal(Init(), steps)
    ensures var s := After(Init(), steps);
            && (s.Started() && s.worker.Rank() <= Ready.Rank() ==> s.host.AtBarrier? && s.Alive(WorkletObject))
            && (s.Started() && !s.Alive(WorkletObject) ==> s.worker.Rank() > Ready.Rank() && s.posted)
  {
    InitInv();
    RunKeepsInv(Init(), steps);
  }

  /** And the thread cannot end its semaphore before the host has posted it, nor its state before the host is done with it. */
  lemma ThreadOutlivesPost(steps: seq<Step>)
    requires Legal(Init(), steps)
    ensures var s := After(Init(), steps);
            && (s.Started() && s.worker.Rank() > Ready.Rank() && !s.posted ==> s.Alive(Finished) && s.Alive(State))
            && (s.Started() && !s.Alive(State) ==> s.posted && s.callers == 0 && !s.locked)
  {
    InitInv();
    RunKeepsInv(Init(), steps);
    if After(Init(), steps).Started() && !After(Init(), steps).posted {
      PostComesBefore(After(Init(), steps));
    }
  }

  lemma PostComesBefore(s: Life)
    requires Inv(s) && s.Started() && !s.posted
    ensures s.alive.state && (s.worker.Rank() > Ready.Rank() ==> s.alive.finished)
  {
  }

  /** Whoever gives up the worklet's share has closed its end, so that an ipc still open reads the end. */
  lemma EndIsClosedBeforeTheDrop(steps: seq<Step>)
    requires Legal(Init(), steps)
    ensures var s := After(Init(), steps);
            && (s.destroyed ==> s.uv.Closed?)
            && (s.host.HostDone? && !s.Started() ==> s.destroyed)
            && (s.worker.ThreadDone? ==> s.destroyed)
  {
    InitInv();
    RunKeepsInv(Init(), steps);
    DropComesLast(After(Init(), steps));
  }

  lemma DropComesLast(s: Life)
    requires Inv(s)
    ensures s.destroyed ==> s.uv.Closed?
    ensures s.host.HostDone? && !s.Started() ==> s.destroyed
    ensures s.worker.ThreadDone? ==> s.destroyed
  {
  }

  /** The exit callback runs only once the worklet end is closed and `bare` is out of the host's reach. */
  lemma ExitComesAfterClose(steps: seq<Step>)
    requires Legal(Init(), steps)
    ensures var s := After(Init(), steps);
            s.worker.Rank() >= Exiting.Rank() ==> s.uv.Closed? && !s.bareSet && !s.Alive(Bare) && !s.Alive(Async)
  {
    InitInv();
    RunKeepsInv(Init(), steps);
  }

  // Opening

  /** The first ipc to open gets the host end, and every later one is refused. */
  lemma FirstIpcOpens(s: Life, i: nat)
    requires Inv(s) && Enabled(s, IpcCreate(i))
    ensures var t := Do(s, IpcCreate(i));
            && Inv(t) && Enabled(t, IpcOpen(i))
            && Do(t, IpcOpen(i)).ipcs == s.ipcs[i := if s.owner.None? then Opened else Refused]
            && Do(t, IpcOpen(i)).owner == (if s.owner.None? then Some(i) else s.owner)
  {
    StepKeepsInv(s, IpcCreate(i));
  }

  /** A call that takes the state's lock goes on to use `bare` exactly if it is there. */
  lemma CallsUseBareExactly(s: Life)
    requires Inv(s) && Enabled(s, CallLock)
    ensures Enabled(Do(s, CallLock), CallBody)
    ensures Bare in Touches(Do(s, CallLock), CallBody) <==> s.bareSet
  {
  }
}
