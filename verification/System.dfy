/**
 One worklet and its ipc, with every thread free to run between any two
 sections: the callers of the host end, the poll thread, and the worklet's loop.
 Each section of the queue's lock is one step, and so is each atomic access.
 */
module System {
  import opened Options
  import opened Rings
  import opened QueueModel
  import opened HostModel
  import opened StreamModel
  import opened Ipcs

  /** What the holder of the ipc's lock has left to do between its sections. */
  datatype HostOp =
    | Unlocked
    | ReadCheck  // A read returned bytes, and is about to see whether more remains
    | SignalOwed // A read that left something, an end or a close is about to wake the poll

  /** Where the poll thread is. */
  datatype PollPc =
    | Asleep
    | WakeSeen              // The wake is cleared and the callback about to be loaded
    | CallbackSeen          // The events are about to be loaded
    | Asked(ready: Events)  // The ipc's lock is about to be taken
    | Locked(ready: Events, open: bool) // Readability is settled, writability is about to be, of a port seen open or not
    | Calling(ready: Events)

  /** `owed` counts the starts that have begun and not yet signalled; `loaded` is what its thread last found asked for. */
  datatype Poll = Poll(attached: bool, callback: bool, events: Events, owed: nat, pc: PollPc, loaded: Events)

  /** What the threads have seen happen. */
  datatype Log = Log(
    handed: seq<Byte>,       // Worklet chunks given to the stream to write
    accepted: seq<Byte>,     // Worklet bytes that the queue took
    dropped: bool,           // A worklet chunk was refused
    hostRead: seq<Byte>,     // Bytes that host reads returned
    hostEof: bool,           // A host read has returned 0 since the port last opened or closed
    hostSent: seq<Message>,  // Host writes that were accepted
    pushed: seq<Message>,    // Messages given to the stream's reader
    workletEof: bool         // The stream's reader was given its end
  )

  /** What the poll callback was last told and may still act on. */
  datatype Told = Told(
    readable: bool, // Called with readable, and nothing was read since
    writable: bool, // Called with writable, and no write blocked or filled the ring since
    roomy: bool     // Called with writable, and nothing was written since
  )

  /** Buffers of messages: ids below `next` are allocated; JavaScript holds some, and some are freed. */
  datatype Heap = Heap(next: nat, held: seq<Message>, freed: seq<Message>)

  datatype Sys = Sys(
    q: Queue,
    host: Host,
    op: HostOp,
    poll: Poll,
    js: Js,
    live: bool,      // The worklet's JavaScript can run
    finalled: bool,  // The stream's writes have ended
    maxChunk: nat,   // The longest chunk that JavaScript writes
    gone: bool,      // The queue is freed
    log: Log,
    told: Told,
    heap: Heap
  ) {
    /** What the callback is being called with. */
    function Called(): Events {
      if poll.pc.Calling? then poll.pc.ready else Events(false, false)
    }
  }

  function Init(capacity: nat, maxChunk: nat): Sys {
    Sys(Create(capacity), Host(false, None, 0), Unlocked,
        Poll(false, false, Events(false, false), 0, Asleep, Events(false, false)),
        Js(false, None, Outside), false, false, maxChunk, false,
        Log([], [], false, [], false, [], [], false), Told(false, false, false),
        Heap(0, [], []))
  }

  datatype HostStep =
    | Open
    | HRead(n: nat)
    | Check
    | HWrite(data: seq<Byte>)
    | HEnd
    | HClose
    | Signal

  datatype PollStep =
    | Attach
    | Detach
    | StartEvents(events: Events)
    | StartCallback
    | StartSignal
    | StopEvents
    | StopCallback
    | Wake
    | LoadCallback
    | LoadEvents
    | CheckReadable
    | CheckWritable
    | Return

  datatype JsStep =
    | JOpen
    | JRead
    | JTurn(more: bool)
    | JWrite(chunk: seq<Byte>)
    | JWake
    | JRetry
    | JFinal
    | JClose
    | JExit
    | JFinalize(i: nat) // The `i`-th held buffer is collected
    | JDestroy

  datatype Step = OfHost(h: HostStep) | OfPoll(p: PollStep) | OfWorklet(j: JsStep)

  predicate IpcLockFree(s: Sys) {
    s.op.Unlocked? && !s.poll.pc.Locked?
  }

  // Host

  predicate HostEnabled(s: Sys, step: HostStep) {
    match step
    case Open => s.q.thread.Idle? && !s.gone
    case HRead(n) => IpcLockFree(s) && !s.q.thread.Idle? && n > 0
    case Check => s.op.ReadCheck?
    case HWrite(_) => IpcLockFree(s) && !s.q.thread.Idle?
    case HEnd => IpcLockFree(s) && !s.q.thread.Idle?
    case HClose => IpcLockFree(s) && !s.q.thread.Idle?
    case Signal => s.op.SignalOwed?
  }

  /** The message that a read copies from. */
  function ReadFrom(s: Sys): Option<Message> {
    if s.host.pending.Some? then s.host.pending
    else if s.host.port && s.q.toThread != [] then Some(s.q.toThread[0])
    else None
  }

  function DoHostRead(s: Sys, n: nat): Sys
    requires s.host.Valid()
  {
    var (q, host, outcome) := Fetch(s.q, s.host, n);
    var s' := s.(q := q, host := host, told := s.told.(readable := false));
    match outcome
    case Blocked => s'
    case Eof => s'.(log := s.log.(hostEof := true))
    case Bytes(bytes) =>
      s'.(op := ReadCheck,
          log := s.log.(hostRead := s.log.hostRead + bytes),
          heap := if host.pending.None? && ReadFrom(s).Some?
                  then s.heap.(freed := s.heap.freed + [ReadFrom(s).value]) else s.heap)
  }

  function DoHostWrite(s: Sys, data: seq<Byte>): Sys {
    if !s.host.port || data == [] then s.(told := s.told.(roomy := false))
    else
      var id := s.heap.next;
      var (q, result) := Write(s.q, Thread, id, data);
      var s' := s.(q := q, told := s.told.(roomy := false, writable := s.told.writable && q.Writable(Thread)));
      match result
      case Written(n) =>
        s'.(heap := s.heap.(next := id + 1),
            log := s.log.(hostSent := s.log.hostSent + [Message(id, if n <= |data| then data[..n] else data)]))
      case _ => s'.(heap := s.heap.(next := id + 1, freed := s.heap.freed + [Message(id, data)]))
  }

  /** Frees the queue if the last share of it is gone. */
  function FreeIf(s: Sys, unowned: bool): Sys {
    if unowned then
      s.(gone := true, q := s.q.(toUv := [], toThread := []),
         heap := s.heap.(freed := s.heap.freed + (s.q.toUv + s.q.toThread)))
    else s
  }

  function DoHostClose(s: Sys): Sys {
    if !s.host.port then s
    else
      var (q, unowned) := Advance(s.q, Thread, Closed);
      var closed := FreeIf(s.(q := q), unowned);
      closed.(host := s.host.(port := false, pending := None), op := SignalOwed,
              log := s.log.(hostEof := false),
              heap := if s.host.pending.Some?
                      then closed.heap.(freed := closed.heap.freed + [s.host.pending.value])
                      else closed.heap)
  }

  function DoHost(s: Sys, step: HostStep): Sys
    requires s.host.Valid()
  {
    match step
    case Open => s.(q := OpenThread(s.q).0, host := Host(true, None, 0))
    case HRead(n) => DoHostRead(s, n)
    case Check => s.(op := if s.host.pending.Some? || s.q.Readable(Thread) then SignalOwed else Unlocked)
    case HWrite(data) => DoHostWrite(s, data)
    case HEnd => if s.host.port then s.(q := Advance(s.q, Thread, Ended).0, op := SignalOwed) else s
    case HClose => DoHostClose(s)
    case Signal => s.(op := Unlocked, q := s.q.(threadWake := true))
  }

  // Poll

  predicate PollEnabled(s: Sys, step: PollStep) {
    match step
    case Attach => !s.poll.attached && !s.q.thread.Idle? && (s.poll.pc.Asleep? || s.poll.pc.Calling?)
    case Detach => s.poll.attached && s.poll.owed == 0 && (s.poll.pc.Asleep? || s.poll.pc.Calling?)
    case StartEvents(events) => s.poll.attached && !events.None()
    case StartCallback => s.poll.attached && s.poll.owed > 0
    case StartSignal => s.poll.owed > 0
    case StopEvents => s.poll.attached
    case StopCallback => s.poll.attached
    case Wake => s.q.threadWake && !s.q.thread.Idle? && s.poll.pc.Asleep?
    case LoadCallback => s.poll.pc.WakeSeen?
    case LoadEvents => s.poll.pc.CallbackSeen?
    case CheckReadable => s.poll.pc.Asked? && s.op.Unlocked?
    case CheckWritable => s.poll.pc.Locked?
    case Return => s.poll.pc.Calling?
  }

  function DoPoll(s: Sys, step: PollStep): Sys {
    var p := s.poll;
    var none := Events(false, false);
    match step
    case Attach =>
      s.(poll := p.(attached := true, callback := false, events := none), told := Told(false, false, false))
    case Detach => s.(poll := p.(attached := false, callback := false, events := none))
    case StartEvents(events) =>
      s.(poll := p.(events := events, owed := p.owed + 1), told := Told(false, false, false))
    case StartCallback => s.(poll := p.(callback := true))
    case StartSignal =>
      s.(poll := p.(owed := if p.owed > 0 then p.owed - 1 else 0), q := s.q.(threadWake := true))
    case StopEvents => s.(poll := p.(events := none))
    case StopCallback => s.(poll := p.(callback := false))
    case Wake => s.(poll := p.(pc := WakeSeen), q := s.q.(threadWake := false))
    case LoadCallback => s.(poll := p.(pc := if p.attached && p.callback then CallbackSeen else Asleep))
    case LoadEvents => s.(poll := p.(pc := Asked(p.events), loaded := p.events))
    case CheckReadable =>
      var asked := if p.pc.Asked? then p.pc.ready else none;
      var readable := asked.readable && HostReadable(s.q, s.host);
      s.(poll := p.(pc := Locked(Events(readable, asked.writable), s.host.port)),
         told := s.told.(readable := s.told.readable || readable))
    case CheckWritable =>
      var asked := if p.pc.Locked? then p.pc.ready else none;
      var open := p.pc.Locked? && p.pc.open;
      var writable := asked.writable && (!open || s.q.Writable(Thread));
      var ready := Events(asked.readable, writable);
      s.(poll := p.(pc := if ready.None() then Asleep else Calling(ready)),
         told := s.told.(writable := s.told.writable || writable, roomy := s.told.roomy || writable))
    case Return => s.(poll := p.(pc := Asleep))
  }

  // Worklet

  predicate JsEnabled(s: Sys, step: JsStep) {
    match step
    case JOpen => s.q.uv.Idle? && !s.live && !s.q.destroyed
    case JRead => s.live && s.js.pc.Outside?
    case JTurn(_) => s.live && s.js.pc.Draining?
    case JWrite(chunk) => s.live && s.js.pendingWrite.None? && !s.finalled && |chunk| <= s.maxChunk
    case JWake => s.live && s.js.pc.Outside? && s.q.uvWake && s.q.uv.Listening()
    case JRetry => s.live && s.js.pc.WakeTaken?
    case JFinal => s.live && s.js.pendingWrite.None? && !s.finalled
    case JClose => !s.q.destroyed
    case JExit => s.live && s.q.uv.Closed?
    case JFinalize(i) => i < |s.heap.held|
    case JDestroy => !s.live && s.q.uv.Closed? && !s.q.destroyed
  }

  function DoSend(s: Sys, chunk: seq<Byte>): Sys {
    var id := s.heap.next;
    var (q, js, result) := Send(s.q, s.js.(pendingWrite := None), id, chunk);
    var s' := s.(q := q, js := js);
    if chunk == [] then s'
    else
      match result
      case Written(n) =>
        s'.(heap := s.heap.(next := id + 1),
            log := s.log.(accepted := s.log.accepted + (if n <= |chunk| then chunk[..n] else chunk)))
      case WriteBlocked => s'.(heap := s.heap.(next := id + 1, freed := s.heap.freed + [Message(id, chunk)]))
      case Rejected =>
        s'.(heap := s.heap.(next := id + 1, freed := s.heap.freed + [Message(id, chunk)]),
            log := s.log.(dropped := true))
  }

  function DoTurn(s: Sys, more: bool): Sys {
    var (q, js, result) := DrainTurn(s.q, s.js, more);
    var s' := s.(q := q, js := js);
    match result
    case ReadBlocked => s'
    case EndOfStream => s'.(log := s.log.(workletEof := true))
    case Received(message) =>
      s'.(log := s.log.(pushed := s.log.pushed + [message]),
          heap := s.heap.(held := s.heap.held + [message]))
  }

  function DoRetry(s: Sys): Sys {
    var s' := if s.js.pendingWrite.Some? then DoSend(s, s.js.pendingWrite.value) else s;
    s'.(js := s'.js.(pc := Draining))
  }

  function DoFinalize(s: Sys, i: nat): Sys {
    if i >= |s.heap.held| then s
    else
      var held := s.heap.held;
      s.(heap := s.heap.(held := held[..i] + held[i + 1..], freed := s.heap.freed + [held[i]]))
  }

  function DoJs(s: Sys, step: JsStep): Sys {
    match step
    case JOpen => s.(q := OpenUv(s.q), live := true)
    case JRead => s.(js := s.js.(reading := true, pc := Draining))
    case JTurn(more) => DoTurn(s, more)
    case JWrite(chunk) => DoSend(s.(log := s.log.(handed := s.log.handed + chunk)), chunk)
    case JWake => s.(js := s.js.(pc := WakeTaken), q := s.q.(uvWake := false))
    case JRetry => DoRetry(s)
    case JFinal => s.(q := Advance(s.q, Uv, Ended).0, finalled := true)
    case JClose => s.(q := Advance(s.q, Uv, Closed).0)
    case JExit => s.(live := false)
    case JFinalize(i) => DoFinalize(s, i)
    case JDestroy =>
      var (q, unowned) := Destroy(s.q);
      FreeIf(s.(q := q), unowned)
  }

  // Runs

  predicate Enabled(s: Sys, step: Step) {
    match step
    case OfHost(h) => HostEnabled(s, h)
    case OfPoll(p) => PollEnabled(s, p)
    case OfWorklet(j) => JsEnabled(s, j)
  }

  function Do(s: Sys, step: Step): Sys
    requires s.host.Valid()
  {
    match step
    case OfHost(h) => DoHost(s, h)
    case OfPoll(p) => DoPoll(s, p)
    case OfWorklet(j) => DoJs(s, j)
  }

  /** What ties the parts of a reachable state together. */
  ghost predicate Shape(s: Sys) {
    && s.q.Valid()
    && s.host.Valid()
    && s.host.port == s.q.thread.Listening()
    && (s.op.ReadCheck? ==> s.host.port)
    && (s.q.thread.Idle? ==>
          && s.op.Unlocked? && !s.poll.attached && s.poll.pc.Asleep? && s.poll.owed == 0
          && s.told == Told(false, false, false))
    && (s.poll.pc.Locked? ==> s.op.Unlocked? && s.poll.pc.open == s.host.port)
    && (s.js.pendingWrite.Some? ==> s.js.pendingWrite.value != [])
    && (s.live ==> !s.q.destroyed && !s.q.uv.Idle?)
    && (s.q.destroyed ==> s.q.uv.Closed?)
    && (s.js.reading || !s.js.pc.Outside? || s.js.pendingWrite.Some? ==> !s.q.uv.Idle?)
    && (s.finalled ==> s.q.uv.Rank() >= Ended.Rank() && s.js.pendingWrite.None?)
    && (s.q.uv.Ended? ==> s.finalled)
    && (s.gone ==> s.q.destroyed && !s.host.port && s.q.toUv == [] && s.q.toThread == [])
    && (s.q.destroyed && !s.host.port ==> s.gone)
  }

  lemma InitHasShape(capacity: nat, maxChunk: nat)
    requires capacity > 0
    ensures Shape(Init(capacity, maxChunk))
  {
  }

  /** A host read touches nothing of the queue but the ring it takes from and the worklet's wake. */
  lemma FetchFrame(q: Queue, h: Host, n: nat)
    requires q.Valid() && h.Valid() && n > 0
    ensures var (q', h', _) := Fetch(q, h, n);
            && q'.Valid() && h'.Valid() && h'.port == h.port
            && q' == q.(toThread := q'.toThread, uvWake := q'.uvWake)
            && (q'.toThread == q.toThread || (q.toThread != [] && q'.toThread == q.toThread[1..]))
  {
    FetchTakesPrefix(q, h, n);
    ReadKeepsValid(q, Thread);
  }

  lemma HostReadKeepsShape(s: Sys, n: nat)
    requires Shape(s) && HostEnabled(s, HRead(n))
    ensures Shape(DoHostRead(s, n))
  {
    var (q, host, outcome) := Fetch(s.q, s.host, n);
    FetchFrame(s.q, s.host, n);
    assert outcome.Bytes? ==> host.port || host.pending.None?;
    FetchOutcomeIsExact(s.q, s.host, n);
  }

  lemma HostWriteKeepsShape(s: Sys, data: seq<Byte>)
    requires Shape(s)
    ensures Shape(DoHostWrite(s, data))
  {
    WriteKeepsValid(s.q, Thread, s.heap.next, data);
  }

  lemma EndKeepsShape(s: Sys)
    requires Shape(s) && HostEnabled(s, HEnd)
    ensures Shape(DoHost(s, HEnd))
  {
  }

  lemma CloseKeepsShape(s: Sys)
    requires Shape(s) && HostEnabled(s, HClose)
    ensures Shape(DoHostClose(s))
  {
  }

  lemma OpenKeepsShape(s: Sys)
    requires Shape(s) && HostEnabled(s, HostStep.Open)
    ensures Shape(DoHost(s, HostStep.Open))
  {
  }

  lemma HostKeepsShape(s: Sys, step: HostStep)
    requires Shape(s) && HostEnabled(s, step)
    ensures Shape(DoHost(s, step))
  {
    match step
    case Open => OpenKeepsShape(s);
    case HRead(n) => HostReadKeepsShape(s, n);
    case HWrite(data) => HostWriteKeepsShape(s, data);
    case HEnd => EndKeepsShape(s);
    case HClose => CloseKeepsShape(s);
    case Check =>
    case Signal =>
  }

  /** The poll's steps touch nothing but the poll, what it was told, and the host's wake. */
  lemma PollFrame(s: Sys, step: PollStep)
    ensures var t := DoPoll(s, step);
            t == s.(poll := t.poll, told := t.told, q := s.q.(threadWake := t.q.threadWake))
  {
    assert s.q.(threadWake := s.q.threadWake) == s.q;
    match step
    case Attach =>
    case CheckReadable =>
    case CheckWritable =>
    case _ =>
  }

  lemma PollNeedsOpen(s: Sys, step: PollStep)
    requires Shape(s) && PollEnabled(s, step)
    ensures !s.q.thread.Idle?
    ensures var pc := DoPoll(s, step).poll.pc; pc.Locked? ==> s.op.Unlocked? && pc.open == s.host.port
  {
  }

  lemma PollKeepsShape(s: Sys, step: PollStep)
    requires Shape(s) && PollEnabled(s, step)
    ensures Shape(DoPoll(s, step))
  {
    PollFrame(s, step);
    PollNeedsOpen(s, step);
  }

  /** A worklet write touches nothing of the queue but its ring and the host's wake. */
  lemma SendFrame(q: Queue, js: Js, id: nat, chunk: seq<Byte>)
    requires q.Valid()
    ensures var (q', js', _) := Send(q, js, id, chunk);
            && q'.Valid()
            && q' == q.(toThread := q'.toThread, threadWake := q'.threadWake)
            && js' == js.(pendingWrite := js'.pendingWrite)
            && (js'.pendingWrite.Some? ==> js'.pendingWrite.value != [])
  {
    WriteKeepsValid(q, Uv, id, chunk);
  }

  lemma SendKeepsShape(s: Sys, chunk: seq<Byte>)
    requires Shape(s) && s.live && !s.finalled
    ensures Shape(DoSend(s, chunk))
  {
    SendFrame(s.q, s.js.(pendingWrite := None), s.heap.next, chunk);
  }

  lemma TurnKeepsShape(s: Sys, more: bool)
    requires Shape(s) && s.live
    ensures Shape(DoTurn(s, more))
  {
    ReadKeepsValid(s.q, Uv);
  }

  lemma OpenUvKeepsShape(s: Sys)
    requires Shape(s) && JsEnabled(s, JOpen)
    ensures Shape(DoJs(s, JOpen))
  {
  }

  lemma ReadAskedKeepsShape(s: Sys)
    requires Shape(s) && JsEnabled(s, JRead)
    ensures Shape(DoJs(s, JRead))
  {
  }

  lemma WakeTakenKeepsShape(s: Sys)
    requires Shape(s) && JsEnabled(s, JWake)
    ensures Shape(DoJs(s, JWake))
  {
  }

  lemma FinalKeepsShape(s: Sys)
    requires Shape(s) && JsEnabled(s, JFinal)
    ensures Shape(DoJs(s, JFinal))
  {
  }

  lemma CloseUvKeepsShape(s: Sys)
    requires Shape(s) && JsEnabled(s, JClose)
    ensures Shape(DoJs(s, JClose))
  {
  }

  lemma ExitKeepsShape(s: Sys)
    requires Shape(s) && JsEnabled(s, JExit)
    ensures Shape(DoJs(s, JExit))
  {
  }

  lemma DestroyKeepsShape(s: Sys)
    requires Shape(s) && JsEnabled(s, JDestroy)
    ensures Shape(DoJs(s, JDestroy))
  {
  }

  lemma RetryKeepsShape(s: Sys)
    requires Shape(s) && JsEnabled(s, JRetry)
    ensures Shape(DoRetry(s))
  {
    if s.js.pendingWrite.Some? {
      SendKeepsShape(s, s.js.pendingWrite.value);
    }
  }

  lemma FinalizeKeepsShape(s: Sys, i: nat)
    requires Shape(s)
    ensures Shape(DoFinalize(s, i))
  {
  }

  lemma JsKeepsShape(s: Sys, step: JsStep)
    requires Shape(s) && JsEnabled(s, step)
    ensures Shape(DoJs(s, step))
  {
    match step
    case JOpen => OpenUvKeepsShape(s);
    case JRead => ReadAskedKeepsShape(s);
    case JTurn(more) => TurnKeepsShape(s, more);
    case JWrite(chunk) => SendKeepsShape(s.(log := s.log.(handed := s.log.handed + chunk)), chunk);
    case JWake => WakeTakenKeepsShape(s);
    case JRetry => RetryKeepsShape(s);
    case JFinal => FinalKeepsShape(s);
    case JClose => CloseUvKeepsShape(s);
    case JExit => ExitKeepsShape(s);
    case JFinalize(i) => FinalizeKeepsShape(s, i);
    case JDestroy => DestroyKeepsShape(s);
  }

  lemma StepKeepsShape(s: Sys, step: Step)
    requires Shape(s) && Enabled(s, step)
    ensures Shape(Do(s, step))
  {
    match step
    case OfHost(h) => HostKeepsShape(s, h);
    case OfPoll(p) => PollKeepsShape(s, p);
    case OfWorklet(j) => JsKeepsShape(s, j);
  }

  // What the steps that move no bytes leave alone

  /** Steps of the worklet that only set flags or move its end forward. */
  predicate Marks(step: JsStep) {
    step.JOpen? || step.JRead? || step.JWake? || step.JFinal? || step.JClose? || step.JExit?
  }

  lemma EndMovesNothing(q: Queue, state: EndState)
    ensures var t := Advance(q, Uv, state).0;
            t == q.(uv := t.uv, threadWake := t.threadWake) && q.uv.Rank() <= t.uv.Rank()
  {
  }

  lemma MarksMoveNothing(s: Sys, step: JsStep)
    requires JsEnabled(s, step) && Marks(step)
    ensures var t := DoJs(s, step);
            && t.q.toUv == s.q.toUv && t.q.toThread == s.q.toThread && t.q.capacity == s.q.capacity
            && t.q.thread == s.q.thread && s.q.uv.Rank() <= t.q.uv.Rank()
            && t.host == s.host && t.gone == s.gone && t.log == s.log && t.heap == s.heap
            && t.js.pendingWrite == s.js.pendingWrite && t.maxChunk == s.maxChunk
  {
    match step
    case JFinal => EndMovesNothing(s.q, Ended);
    case JClose => EndMovesNothing(s.q, Closed);
    case JOpen =>
    case JWake =>
    case JRead =>
    case JExit =>
  }

  // What the steps that move bytes change, and nothing else

  /** What a host read lets go of, if anything. */
  function Released(s: Sys, n: nat): seq<Message>
    requires s.host.Valid()
  {
    var (_, host, outcome) := Fetch(s.q, s.host, n);
    if outcome.Bytes? && host.pending.None? && ReadFrom(s).Some? then [ReadFrom(s).value] else []
  }

  lemma HostReadLog(s: Sys, n: nat)
    requires Shape(s) && n > 0
    ensures var (q, host, outcome) := Fetch(s.q, s.host, n);
            var s' := DoHostRead(s, n);
            && s'.q == q.(threadWake := s'.q.threadWake) && s'.host == host
            && s'.js == s.js && s'.gone == s.gone
            && s'.heap == s.heap.(freed := s.heap.freed + Released(s, n))
            && s'.log == (match outcome
                          case Blocked => s.log
                          case Eof => s.log.(hostEof := true)
                          case Bytes(bytes) => s.log.(hostRead := s.log.hostRead + bytes))
  {
  }

  lemma HostWriteLog(s: Sys, data: seq<Byte>)
    requires s.host.port && data != []
    ensures var result := Write(s.q, Thread, s.heap.next, data).1;
            var s' := DoHostWrite(s, data);
            && s' == s.(q := s'.q, log := s'.log, heap := s'.heap, told := s'.told)
            && match result {
                 case Written(n) =>
                   && n <= |data|
                   && var m := Message(s.heap.next, data[..n]);
                   && s'.q == s.q.(toUv := s.q.toUv + [m], uvWake := s'.q.uvWake)
                   && s'.log == s.log.(hostSent := s.log.hostSent + [m])
                   && s'.heap == s.heap.(next := s.heap.next + 1)
                   && s.q.thread.Rank() < Ended.Rank()
                 case _ =>
                   && s'.q == s.q && s'.log == s.log
                   && s'.heap == s.heap.(next := s.heap.next + 1,
                                         freed := s.heap.freed + [Message(s.heap.next, data)])
               }
  {
    assert Clamp(data) == data[..|Clamp(data)|];
  }

  lemma SendLog(s: Sys, chunk: seq<Byte>)
    requires chunk != []
    ensures var result := Send(s.q, s.js.(pendingWrite := None), s.heap.next, chunk).2;
            var s' := DoSend(s, chunk);
            && s' == s.(q := s'.q, js := s.js.(pendingWrite := s'.js.pendingWrite), log := s'.log, heap := s'.heap)
            && match result {
                 case Written(n) =>
                   && n <= |chunk|
                   && s'.q == s.q.(toThread := s.q.toThread + [Message(s.heap.next, chunk[..n])],
                                   threadWake := s'.q.threadWake)
                   && s'.js.pendingWrite == (if n < |chunk| then Some(chunk[n..]) else None)
                   && s'.log == s.log.(accepted := s.log.accepted + chunk[..n])
                   && s'.heap == s.heap.(next := s.heap.next + 1)
                   && s.q.uv.Rank() < Ended.Rank()
                 case WriteBlocked =>
                   && s'.q == s.q && s'.js.pendingWrite == Some(chunk) && s'.log == s.log
                   && s'.heap == s.heap.(next := s.heap.next + 1,
                                         freed := s.heap.freed + [Message(s.heap.next, chunk)])
                 case Rejected =>
                   && s'.q == s.q && s'.js.pendingWrite.None? && s'.log == s.log.(dropped := true)
                   && s'.heap == s.heap.(next := s.heap.next + 1,
                                         freed := s.heap.freed + [Message(s.heap.next, chunk)])
                   && (s.q.uv.Rank() >= Ended.Rank() || s.q.thread.Closed?)
               }
  {
    assert Clamp(chunk) == chunk[..|Clamp(chunk)|];
  }

  lemma TurnLog(s: Sys, more: bool)
    ensures var s' := DoTurn(s, more);
            var received := s.js.reading && s.q.toUv != [];
            var ended := s.js.reading && s.q.toUv == [] && s.q.thread.Rank() >= Ended.Rank();
            && s'.q == s.q.(toUv := if received then s.q.toUv[1..] else s.q.toUv, threadWake := s'.q.threadWake)
            && s'.host == s.host && s'.gone == s.gone && s'.maxChunk == s.maxChunk
            && s'.js.pendingWrite == s.js.pendingWrite
            && s'.heap == s.heap.(held := if received then s.heap.held + [s.q.toUv[0]] else s.heap.held)
            && s'.log == s.log.(pushed := if received then s.log.pushed + [s.q.toUv[0]] else s.log.pushed,
                                workletEof := s.log.workletEof || ended)
  {
    if !s.js.reading {
      assert DrainTurn(s.q, s.js, more).2.ReadBlocked?;
    } else if s.q.toUv == [] {
      assert !DrainTurn(s.q, s.js, more).2.Received?;
    } else {
      assert DrainTurn(s.q, s.js, more).2 == Received(s.q.toUv[0]);
    }
  }

  lemma DestroyFrees(s: Sys)
    requires Shape(s) && JsEnabled(s, JDestroy)
    ensures var t := DoJs(s, JDestroy);
            && t.q.thread == s.q.thread && t.q.uv == s.q.uv && t.q.capacity == s.q.capacity
            && t.host == s.host && t.log == s.log && t.js == s.js && t.maxChunk == s.maxChunk
            && (t.host.port ==> t.q.toUv == s.q.toUv && t.q.toThread == s.q.toThread)
  {
  }

  lemma SendLeavesHost(s: Sys, chunk: seq<Byte>)
    requires s.q.Valid()
    ensures var t := DoSend(s, chunk);
            && t.q == s.q.(toThread := t.q.toThread, threadWake := t.q.threadWake)
            && t.host == s.host && t.maxChunk == s.maxChunk && t.log.hostEof == s.log.hostEof
            && (s.q.uv.Closed? ==> t.q == s.q)
  {
    SendFrame(s.q, s.js.(pendingWrite := None), s.heap.next, chunk);
  }

  /** No step of the worklet moves the host's end, or adds to the stream once the worklet's own end is closed. */
  lemma JsLeavesHost(s: Sys, step: JsStep)
    requires Shape(s) && JsEnabled(s, step)
    ensures var t := DoJs(s, step);
            && t.host == s.host && t.log.hostEof == s.log.hostEof
            && t.q.thread == s.q.thread && s.q.uv.Rank() <= t.q.uv.Rank()
            && t.q.capacity == s.q.capacity && t.maxChunk == s.maxChunk
            && (s.q.uv.Closed? && t.host.port ==> t.q.toThread == s.q.toThread)
  {
    if Marks(step) {
      MarksMoveNothing(s, step);
    } else {
      match step
      case JWrite(chunk) => SendLeavesHost(s.(log := s.log.(handed := s.log.handed + chunk)), chunk);
      case JTurn(more) => TurnLog(s, more);
      case JRetry => RetryLeavesHost(s);
      case JFinalize(i) => FinalizeLeavesHost(s, i);
      case JDestroy => DestroyFrees(s);
    }
  }

  lemma RetryLeavesHost(s: Sys)
    requires s.q.Valid()
    ensures var t := DoRetry(s);
            && t.q == s.q.(toThread := t.q.toThread, threadWake := t.q.threadWake)
            && t.host == s.host && t.maxChunk == s.maxChunk && t.log.hostEof == s.log.hostEof
            && (s.q.uv.Closed? ==> t.q == s.q)
  {
    if s.js.pendingWrite.Some? {
      SendLeavesHost(s, s.js.pendingWrite.value);
    }
  }

  lemma FinalizeLeavesHost(s: Sys, i: nat)
    ensures var t := DoFinalize(s, i); t == s.(heap := t.heap)
  {
  }

  /** Each step of the run can be taken when its turn comes. */
  ghost predicate Legal(s: Sys, steps: seq<Step>)
    decreases |steps|
  {
    steps == [] ||
    (s.host.Valid() && Enabled(s, steps[0]) && Legal(Do(s, steps[0]), steps[1..]))
  }

  ghost function After(s: Sys, steps: seq<Step>): Sys
    requires Legal(s, steps)
    decreases |steps|
  {
    if steps == [] then s else After(Do(s, steps[0]), steps[1..])
  }

  lemma Prefix(s: Sys, step: Step, rest: seq<Step>) returns (steps: seq<Step>)
    requires s.host.Valid() && Enabled(s, step) && Legal(Do(s, step), rest)
    ensures Legal(s, steps) && After(s, steps) == After(Do(s, step), rest)
    ensures steps != [] && steps[|steps| - 1] == if rest == [] then step else rest[|rest| - 1]
  {
    steps := [step] + rest;
    assert steps[1..] == rest;
  }

  lemma {:induction false} Join(s: Sys, first: seq<Step>, second: seq<Step>) returns (steps: seq<Step>)
    requires Legal(s, first) && Legal(After(s, first), second)
    ensures Legal(s, steps) && After(s, steps) == After(After(s, first), second)
    decreases |first|
  {
    if first == [] {
      steps := second;
    } else {
      var rest := Join(Do(s, first[0]), first[1..], second);
      steps := Prefix(s, first[0], rest);
    }
  }

  lemma {:induction false} RunKeepsShape(s: Sys, steps: seq<Step>)
    requires Shape(s) && Legal(s, steps)
    ensures Shape(After(s, steps))
    decreases |steps|
  {
    if steps != [] {
      StepKeepsShape(s, steps[0]);
      RunKeepsShape(Do(s, steps[0]), steps[1..]);
    }
  }

  /**
   Who holds the ipc's lock and has seen the port open may go on to use it: no
   close comes in between, and the queue is not freed.
   */
  lemma SeenPortStaysOpen(capacity: nat, maxChunk: nat, steps: seq<Step>)
    requires capacity > 0 && Legal(Init(capacity, maxChunk), steps)
    ensures var s := After(Init(capacity, maxChunk), steps);
            (s.poll.pc.Locked? && s.poll.pc.open) || s.op.ReadCheck? ==> s.host.port && !s.gone && s.q.thread.Listening()
  {
    InitHasShape(capacity, maxChunk);
    RunKeepsShape(Init(capacity, maxChunk), steps);
  }
}
