/** No wake is ever lost: a parked end that can go on has a wake on its way. */
module Wakes {
  import opened Options
  import opened Rings
  import opened QueueModel
  import opened HostModel
  import opened StreamModel
  import opened Ipcs
  import opened System
  import Callbacks

  // The worklet end

  /** A reader that waits outside the loop, on a readable queue, has a wake pending. */
  ghost predicate ReaderAwake(s: Sys) {
    s.q.uv.Listening() && s.js.reading && s.js.pc.Outside? && s.q.Readable(Uv) ==> s.q.uvWake
  }

  /** A parked chunk on a writable queue has a wake pending, or the handler is about to retry it. */
  ghost predicate WriterAwake(s: Sys) {
    s.q.uv.Listening() && s.js.pendingWrite.Some? && s.q.Writable(Uv) ==> s.q.uvWake || s.js.pc.WakeTaken?
  }

  /** When every chunk fits one message, or the ring has no room for a second one. */
  predicate ChunksFit(s: Sys) {
    s.maxChunk <= INT_MAX || s.q.capacity <= 2
  }

  ghost predicate ChunkBounded(s: Sys) {
    s.js.pendingWrite.Some? ==> |s.js.pendingWrite.value| <= s.maxChunk
  }

  /** What the worklet's wakes rest on in every reachable state. */
  ghost predicate WorkletAwake(s: Sys) {
    Shape(s) && ReaderAwake(s) && ChunkBounded(s) && (ChunksFit(s) ==> WriterAwake(s))
  }

  lemma NoticedKeepsAwake(s: Sys, s': Sys)
    requires WorkletAwake(s) && Shape(s')
    requires Noticed(s.q, s'.q, Uv)
    requires s'.js == s.js && s'.maxChunk == s.maxChunk && s'.q.capacity == s.q.capacity
    ensures WorkletAwake(s')
  {
  }

  lemma HostIsNoticed(s: Sys, step: HostStep)
    requires Shape(s) && HostEnabled(s, step) && !step.HClose?
    ensures Noticed(s.q, DoHost(s, step).q, Uv)
  {
    match step
    case HRead(n) => ReadIsNoticed(s.q, Uv);
    case HWrite(data) => WriteIsNoticed(s.q, Uv, s.heap.next, data);
    case HEnd => AdvanceIsNoticed(s.q, Uv, Ended);
    case _ =>
  }

  lemma CloseIsNoticed(s: Sys)
    requires Shape(s)
    ensures var s' := DoHostClose(s); s'.q.uv.Listening() ==> !s'.gone && Noticed(s.q, s'.q, Uv)
  {
    AdvanceIsNoticed(s.q, Uv, Closed);
  }

  lemma HostKeepsWorkletAwake(s: Sys, step: HostStep)
    requires WorkletAwake(s) && HostEnabled(s, step)
    ensures WorkletAwake(DoHost(s, step))
  {
    HostKeepsShape(s, step);
    HostFrame(s, step);
    if step.HClose? {
      CloseIsNoticed(s);
    } else {
      HostIsNoticed(s, step);
      NoticedKeepsAwake(s, DoHost(s, step));
    }
  }

  lemma HostFrame(s: Sys, step: HostStep)
    requires Shape(s) && HostEnabled(s, step)
    ensures var s' := DoHost(s, step);
            s'.js == s.js && s'.maxChunk == s.maxChunk && s'.q.capacity == s.q.capacity && s'.q.uv == s.q.uv
  {
    match step
    case HRead(n) => FetchFrame(s.q, s.host, n);
    case _ =>
  }

  /** After a send, a parked chunk finds the queue full. */
  lemma SendParksOnFull(s: Sys, chunk: seq<Byte>)
    requires Shape(s) && s.live && |chunk| <= s.maxChunk && ChunksFit(s)
    ensures var s' := DoSend(s, chunk); s'.js.pendingWrite.Some? ==> !s'.q.Writable(Uv)
  {
    if s.q.Writable(Uv) {
      SendStrandsExactly(s.q, s.js.(pendingWrite := None), s.heap.next, chunk);
    } else if chunk != [] {
      WritableIsExact(s.q, Uv, s.heap.next, chunk);
    }
  }

  lemma SendKeepsAwake(s: Sys, chunk: seq<Byte>)
    requires WorkletAwake(s) && s.live && !s.finalled && |chunk| <= s.maxChunk
    ensures WorkletAwake(DoSend(s, chunk))
  {
    SendKeepsShape(s, chunk);
    SendFrame(s.q, s.js.(pendingWrite := None), s.heap.next, chunk);
    if ChunksFit(s) {
      SendParksOnFull(s, chunk);
    }
  }

  lemma TurnKeepsAwake(s: Sys, more: bool)
    requires WorkletAwake(s) && JsEnabled(s, JTurn(more))
    ensures WorkletAwake(DoTurn(s, more))
  {
    TurnKeepsShape(s, more);
    ReadableIsExact(s.q, Uv);
  }

  lemma RetryKeepsAwake(s: Sys)
    requires WorkletAwake(s) && JsEnabled(s, JRetry)
    ensures WorkletAwake(DoRetry(s))
  {
    JsKeepsShape(s, JRetry);
    if s.js.pendingWrite.Some? {
      SendKeepsAwake(s, s.js.pendingWrite.value);
      if ChunksFit(s) {
        SendParksOnFull(s, s.js.pendingWrite.value);
      }
    }
  }

  lemma JsKeepsWorkletAwake(s: Sys, step: JsStep)
    requires WorkletAwake(s) && JsEnabled(s, step)
    ensures WorkletAwake(DoJs(s, step))
  {
    JsKeepsShape(s, step);
    match step
    case JWrite(chunk) => SendKeepsAwake(s.(log := s.log.(handed := s.log.handed + chunk)), chunk);
    case JTurn(more) => TurnKeepsAwake(s, more);
    case JRetry => RetryKeepsAwake(s);
    case _ =>
  }

  lemma PollKeepsWorkletAwake(s: Sys, step: PollStep)
    requires WorkletAwake(s) && PollEnabled(s, step)
    ensures WorkletAwake(DoPoll(s, step))
  {
    PollKeepsShape(s, step);
    NoticedKeepsAwake(s, DoPoll(s, step));
  }

  lemma StepKeepsWorkletAwake(s: Sys, step: Step)
    requires WorkletAwake(s) && Enabled(s, step)
    ensures WorkletAwake(Do(s, step)) && Do(s, step).maxChunk == s.maxChunk && Do(s, step).q.capacity == s.q.capacity
  {
    match step
    case OfHost(h) =>
      HostKeepsWorkletAwake(s, h);
      HostFrame(s, h);
    case OfPoll(p) =>
      PollKeepsWorkletAwake(s, p);
      PollFrame(s, p);
    case OfWorklet(j) =>
      JsKeepsWorkletAwake(s, j);
      JsLeavesHost(s, j);
  }

  lemma {:induction false} RunKeepsWorkletAwake(s: Sys, steps: seq<Step>)
    requires WorkletAwake(s) && Legal(s, steps)
    ensures var t := After(s, steps); WorkletAwake(t) && t.maxChunk == s.maxChunk && t.q.capacity == s.q.capacity
    decreases |steps|
  {
    if steps != [] {
      StepKeepsWorkletAwake(s, steps[0]);
      RunKeepsWorkletAwake(Do(s, steps[0]), steps[1..]);
    }
  }

  /** In every interleaving a waiting reader of the worklet is woken. */
  lemma ReaderNeverMissesWake(capacity: nat, maxChunk: nat, steps: seq<Step>)
    requires capacity > 0 && Legal(Init(capacity, maxChunk), steps)
    ensures ReaderAwake(After(Init(capacity, maxChunk), steps))
  {
    InitHasShape(capacity, maxChunk);
    RunKeepsWorkletAwake(Init(capacity, maxChunk), steps);
  }

  /** `rest` is parked although the queue has room, and no wake is pending or being handled. */
  ghost predicate Stranded(s: Sys, rest: seq<Byte>) {
    && Shape(s) && s.live && s.q.uv.Open? && !s.q.uvWake && !s.js.pc.WakeTaken?
    && s.js.pendingWrite == Some(rest) && s.q.toUv == [] && |s.q.toThread| + 1 < s.q.capacity
  }

  /** Not a host write, end or close, any of which may wake the worklet, nor the close of its own end. */
  predicate Unprompted(step: Step) {
    && !(step.OfHost? && (step.h.HWrite? || step.h.HEnd? || step.h.HClose?))
    && !(step.OfWorklet? && step.j.JClose?)
  }

  lemma HostLeavesStranded(s: Sys, step: HostStep, rest: seq<Byte>)
    requires Stranded(s, rest) && HostEnabled(s, step) && Unprompted(OfHost(step))
    ensures Stranded(DoHost(s, step), rest)
  {
    HostKeepsShape(s, step);
    match step
    case HRead(n) => FetchLeavesWake(s.q, s.host, n);
    case _ =>
  }

  lemma FetchLeavesWake(q: Queue, h: Host, n: nat)
    requires q.Valid() && h.Valid() && n > 0 && !q.Full(q.toThread)
    ensures var (q', _, _) := Fetch(q, h, n);
            q' == q.(toThread := q'.toThread) && |q'.toThread| <= |q.toThread|
  {
    FetchFrame(q, h, n);
  }

  lemma JsLeavesStranded(s: Sys, step: JsStep, rest: seq<Byte>)
    requires Stranded(s, rest) && JsEnabled(s, step) && Unprompted(OfWorklet(step))
    ensures Stranded(DoJs(s, step), rest)
  {
    JsKeepsShape(s, step);
    match step
    case JTurn(more) => TurnLog(s, more);
    case _ =>
  }

  lemma {:induction false} StrandedStays(s: Sys, steps: seq<Step>, rest: seq<Byte>)
    requires Stranded(s, rest) && Legal(s, steps) && forall i :: 0 <= i < |steps| ==> Unprompted(steps[i])
    ensures Stranded(After(s, steps), rest)
    decreases |steps|
  {
    if steps != [] {
      match steps[0] {
        case OfHost(h) => HostLeavesStranded(s, h, rest);
        case OfPoll(p) =>
          PollKeepsShape(s, p);
          PollFrame(s, p);
        case OfWorklet(j) => JsLeavesStranded(s, j, rest);
      }
      StrandedStays(Do(s, steps[0]), steps[1..], rest);
    }
  }

  /** The first two steps of a worklet that writes too much at once. */
  function LongWrite(maxChunk: nat): seq<Step> {
    [OfWorklet(JOpen), OfWorklet(JWrite(seq(maxChunk, _ => 0)))]
  }

  /**
   A chunk longer than one message strands its rest: the queue has room, yet
   whatever host reads, polls and the stream's reader do from then on, no wake
   comes for it.
   */
  lemma LongChunkStrands(capacity: nat, maxChunk: nat, more: seq<Step>)
    requires capacity > 2 && maxChunk > INT_MAX
    ensures Legal(Init(capacity, maxChunk), LongWrite(maxChunk))
    ensures var s := After(Init(capacity, maxChunk), LongWrite(maxChunk));
            Legal(s, more) && (forall i :: 0 <= i < |more| ==> Unprompted(more[i])) ==>
              var t := After(s, more);
              Stranded(t, seq(maxChunk - INT_MAX, _ => 0)) && t.q.Writable(Uv) && !WriterAwake(t)
  {
    LongWriteStrands(capacity, maxChunk);
    var s := After(Init(capacity, maxChunk), LongWrite(maxChunk));
    if Legal(s, more) && forall i :: 0 <= i < |more| ==> Unprompted(more[i]) {
      StrandedStays(s, more, seq(maxChunk - INT_MAX, _ => 0));
    }
  }

  lemma LongWriteStrands(capacity: nat, maxChunk: nat)
    requires capacity > 2 && maxChunk > INT_MAX
    ensures var s := Init(capacity, maxChunk);
            Legal(s, LongWrite(maxChunk)) && Stranded(After(s, LongWrite(maxChunk)), seq(maxChunk - INT_MAX, _ => 0))
  {
    var chunk: seq<Byte> := seq(maxChunk, _ => 0);
    var s0 := Init(capacity, maxChunk);
    var s1 := Do(s0, OfWorklet(JOpen));
    var s2 := Do(s1, OfWorklet(JWrite(chunk)));
    var steps := LongWrite(maxChunk);
    assert steps[1..] == [OfWorklet(JWrite(chunk))] && steps[1..][1..] == [];
    assert Legal(s2, []) && Legal(s1, steps[1..]) && Legal(s0, steps);
    assert After(s1, steps[1..]) == After(s2, []) == s2;
    InitHasShape(capacity, maxChunk);
    OpenUvKeepsShape(s0);
    SendKeepsShape(s1.(log := s1.log.(handed := s1.log.handed + chunk)), chunk);
    assert chunk[INT_MAX..] == seq(maxChunk - INT_MAX, _ => 0);
  }

  /**
   In every interleaving a parked write of the worklet is woken, exactly when
   every chunk fits one message or the rings are too small for a second one.
   */
  lemma WriterNeverMissesWakeExactly(capacity: nat, maxChunk: nat)
    requires capacity > 0
    ensures (forall steps :: Legal(Init(capacity, maxChunk), steps) ==>
              WriterAwake(After(Init(capacity, maxChunk), steps)))
            <==> maxChunk <= INT_MAX || capacity <= 2
  {
    var s := Init(capacity, maxChunk);
    InitHasShape(capacity, maxChunk);
    if maxChunk <= INT_MAX || capacity <= 2 {
      forall steps | Legal(s, steps)
        ensures WriterAwake(After(s, steps))
      {
        RunKeepsWorkletAwake(s, steps);
      }
    } else {
      LongChunkStrands(capacity, maxChunk, []);
    }
  }

  // The host end

  /** The poll thread is on its way to look at readability for the started events. */
  predicate WillCheckReadable(p: Poll) {
    p.pc.WakeSeen? || p.pc.CallbackSeen? || (p.pc.Asked? && p.pc.ready.readable)
  }

  predicate WillCheckWritable(p: Poll) {
    WillCheck(p) || ((p.pc.Asked? || p.pc.Locked?) && p.pc.ready.writable)
  }

  predicate WillCheck(p: Poll) {
    p.pc.WakeSeen? || p.pc.CallbackSeen?
  }

  /** A signal is pending, or some thread is bound to send one. */
  predicate SignalComing(s: Sys) {
    s.q.threadWake || s.poll.owed > 0 || s.op.SignalOwed?
  }

  predicate Started(p: Poll) {
    p.attached && p.callback
  }

  /** A poll started for readable, on a readable ipc whose end was not read, has been or will be told. */
  ghost predicate ReadPollAwake(s: Sys) {
    Started(s.poll) && s.poll.events.readable && HostReadable(s.q, s.host) && !s.log.hostEof ==>
      SignalComing(s) || s.op.ReadCheck? || WillCheckReadable(s.poll) || s.told.readable
  }

  /** A poll started for writable, on a writable ipc, has been or will be told since the last blocked write. */
  ghost predicate WritePollAwake(s: Sys) {
    Started(s.poll) && s.poll.events.writable && HostWritable(s.q, s.host) ==>
      SignalComing(s) || WillCheckWritable(s.poll) || s.told.writable
  }

  /** What the callback was told still holds, unless the host itself acted on it. */
  ghost predicate ToldHolds(s: Sys) {
    && (s.told.readable ==> HostReadable(s.q, s.host))
    && (s.told.roomy ==> HostWritable(s.q, s.host))
  }

  ghost predicate PollAwake(s: Sys) {
    Shape(s) && ReadPollAwake(s) && WritePollAwake(s) && ToldHolds(s)
  }

  /** A section of the worklet, which the host notices and which takes no readiness away. */
  lemma NoticedKeepsPollAwake(s: Sys, s': Sys)
    requires PollAwake(s) && Shape(s')
    requires Noticed(s.q, s'.q, Thread)
    requires s.q.Readable(Thread) ==> s'.q.Readable(Thread)
    requires s.q.Writable(Thread) ==> s'.q.Writable(Thread)
    requires s'.host == s.host && s'.op == s.op && s'.poll == s.poll && s'.told == s.told
    requires s'.log.hostEof == s.log.hostEof
    ensures PollAwake(s')
  {
  }

  lemma SendIsNoticed(s: Sys, chunk: seq<Byte>)
    requires PollAwake(s) && s.live && !s.finalled
    ensures PollAwake(DoSend(s, chunk))
  {
    SendKeepsShape(s, chunk);
    WriteIsNoticed(s.q, Thread, s.heap.next, chunk);
    PeerWriteKeepsReadiness(s.q, Thread, s.heap.next, chunk);
    NoticedKeepsPollAwake(s, DoSend(s, chunk));
  }

  lemma TurnIsNoticed(s: Sys, more: bool)
    requires PollAwake(s) && s.live
    ensures PollAwake(DoTurn(s, more))
  {
    TurnKeepsShape(s, more);
    ReadIsNoticed(s.q, Thread);
    PeerReadKeepsReadiness(s.q, Thread);
    NoticedKeepsPollAwake(s, DoTurn(s, more));
  }

  lemma UvAdvanceIsNoticed(s: Sys, step: JsStep)
    requires PollAwake(s) && JsEnabled(s, step) && (step.JFinal? || step.JClose?)
    ensures PollAwake(DoJs(s, step))
  {
    var state := if step.JFinal? then Ended else Closed;
    JsKeepsShape(s, step);
    AdvanceIsNoticed(s.q, Thread, state);
    PeerAdvanceKeepsReadiness(s.q, Thread, state);
    NoticedKeepsPollAwake(s, DoJs(s, step));
  }

  lemma JsKeepsPollAwake(s: Sys, step: JsStep)
    requires PollAwake(s) && JsEnabled(s, step)
    ensures PollAwake(DoJs(s, step))
  {
    JsKeepsShape(s, step);
    match step
    case JWrite(chunk) => SendIsNoticed(s.(log := s.log.(handed := s.log.handed + chunk)), chunk);
    case JTurn(more) => TurnIsNoticed(s, more);
    case JRetry =>
      if s.js.pendingWrite.Some? {
        SendIsNoticed(s, s.js.pendingWrite.value);
      }
    case JFinal => UvAdvanceIsNoticed(s, step);
    case JClose => UvAdvanceIsNoticed(s, step);
    case _ =>
  }

  lemma PollKeepsPollAwake(s: Sys, step: PollStep)
    requires PollAwake(s) && PollEnabled(s, step)
    ensures PollAwake(DoPoll(s, step))
  {
    PollKeepsShape(s, step);
  }

  lemma HostReadKeepsPollAwake(s: Sys, n: nat)
    requires PollAwake(s) && HostEnabled(s, HRead(n))
    ensures PollAwake(DoHostRead(s, n))
  {
    HostReadKeepsShape(s, n);
    FetchFrame(s.q, s.host, n);
    FetchOutcomeIsExact(s.q, s.host, n);
    FetchBlocksUnchanged(s.q, s.host, n);
    FetchKeepsWritable(s.q, s.host, n);
  }

  lemma FetchBlocksUnchanged(q: Queue, h: Host, n: nat)
    requires q.Valid() && h.Valid() && n > 0
    ensures var (q', h', outcome) := Fetch(q, h, n);
            outcome.Blocked? ==> !HostReadable(q', h')
  {
  }

  lemma FetchKeepsWritable(q: Queue, h: Host, n: nat)
    requires q.Valid() && h.Valid() && n > 0
    ensures var (q', h', _) := Fetch(q, h, n); HostWritable(q', h') == HostWritable(q, h)
  {
    FetchFrame(q, h, n);
  }

  lemma HostWriteKeepsPollAwake(s: Sys, data: seq<Byte>)
    requires PollAwake(s)
    ensures PollAwake(DoHostWrite(s, data))
  {
    HostWriteKeepsShape(s, data);
    if s.host.port && data != [] {
      WritableIsExact(s.q, Thread, s.heap.next, data);
      OwnWriteReadiness(s.q, Thread, s.heap.next, data);
    }
  }

  lemma OwnWriteReadiness(q: Queue, e: End, id: nat, data: seq<Byte>)
    ensures var (q', result) := Write(q, e, id, data);
            && q'.Readable(e) == q.Readable(e)
            && (q'.Writable(e) ==> q.Writable(e))
            && (!result.Written? ==> q' == q)
            && (e.Thread? ==> q'.threadWake == q.threadWake)
  {
  }

  lemma HostKeepsPollAwake(s: Sys, step: HostStep)
    requires PollAwake(s) && HostEnabled(s, step)
    ensures PollAwake(DoHost(s, step))
  {
    HostKeepsShape(s, step);
    match step
    case HRead(n) => HostReadKeepsPollAwake(s, n);
    case HWrite(data) => HostWriteKeepsPollAwake(s, data);
    case HEnd => OwnAdvanceKeepsReadiness(s.q, Thread, Ended);
    case HClose =>
    case Open =>
    case Check =>
    case Signal =>
  }

  lemma OwnAdvanceKeepsReadiness(q: Queue, e: End, state: EndState)
    ensures q.Readable(e) == Advance(q, e, state).0.Readable(e)
    ensures q.Writable(e) ==> Advance(q, e, state).0.Writable(e)
  {
  }

  lemma StepKeepsPollAwake(s: Sys, step: Step)
    requires PollAwake(s) && Enabled(s, step)
    ensures PollAwake(Do(s, step))
  {
    match step
    case OfHost(h) => HostKeepsPollAwake(s, h);
    case OfPoll(p) => PollKeepsPollAwake(s, p);
    case OfWorklet(j) => JsKeepsPollAwake(s, j);
  }

  lemma {:induction false} RunKeepsPollAwake(s: Sys, steps: seq<Step>)
    requires PollAwake(s) && Legal(s, steps)
    ensures PollAwake(After(s, steps))
    decreases |steps|
  {
    if steps != [] {
      StepKeepsPollAwake(s, steps[0]);
      RunKeepsPollAwake(Do(s, steps[0]), steps[1..]);
    }
  }

  /** In every interleaving a started poll has been, or will be, told of each event that is ready. */
  lemma PollNeverMissesWake(capacity: nat, maxChunk: nat, steps: seq<Step>)
    requires capacity > 0 && Legal(Init(capacity, maxChunk), steps)
    ensures var s := After(Init(capacity, maxChunk), steps); ReadPollAwake(s) && WritePollAwake(s)
  {
    InitHasShape(capacity, maxChunk);
    RunKeepsPollAwake(Init(capacity, maxChunk), steps);
  }

  /** A callback told readable does not block its first read, nor one told writable its first write. */
  lemma CallbackCanAct(capacity: nat, maxChunk: nat, steps: seq<Step>, n: nat, id: nat, data: seq<Byte>)
    requires capacity > 0 && Legal(Init(capacity, maxChunk), steps) && n > 0 && data != []
    ensures var s := After(Init(capacity, maxChunk), steps);
            && s.host.Valid()
            && (s.told.readable ==> !Fetch(s.q, s.host, n).2.Blocked?)
            && (s.told.roomy && s.host.port ==> !Write(s.q, Thread, id, data).1.WriteBlocked?)
  {
    InitHasShape(capacity, maxChunk);
    RunKeepsPollAwake(Init(capacity, maxChunk), steps);
    var s := After(Init(capacity, maxChunk), steps);
    FetchOutcomeIsExact(s.q, s.host, n);
    WritableIsExact(s.q, Thread, id, data);
  }

  // Polls are not level-triggered

  /** No signal is pending, and none is on its way. */
  ghost predicate Silent(s: Sys) {
    s.poll.pc.Asleep? && !SignalComing(s) && s.op.Unlocked?
  }

  /** A chunk that the queue takes into an empty ring. */
  predicate Starts(q: Queue, chunk: seq<Byte>) {
    chunk != [] && q.toThread == [] && !q.Full(q.toThread) && q.uv.Rank() < Ended.Rank()
  }

  /** An event of the queue: the worklet fills an empty ring, drains a full one, ends or closes. */
  predicate WakesHost(s: Sys, step: JsStep) {
    s.q.thread.Listening() &&
    match step
    case JWrite(chunk) => Starts(s.q, chunk)
    case JRetry => s.js.pendingWrite.Some? && Starts(s.q, s.js.pendingWrite.value)
    case JTurn(_) => s.js.reading && s.q.toUv != [] && s.q.Full(s.q.toUv)
    case JFinal => true
    case JClose => true
    case _ => false
  }

  /**
   A step that makes the poll look again: a read that returned bytes, an end or a
   close, a start, or an event of the queue.
   */
  ghost predicate Rouses(s: Sys, step: Step)
    requires s.host.Valid()
  {
    match step
    case OfHost(HRead(n)) => Fetch(s.q, s.host, n).2.Bytes?
    case OfHost(HEnd) => s.host.port
    case OfHost(HClose) => s.host.port
    case OfHost(Open) => s.q.toThread != []
    case OfHost(_) => false
    case OfPoll(p) => p.StartEvents?
    case OfWorklet(j) => WakesHost(s, j)
  }

  /** The poll's thread stays asleep exactly until such a step, however long its events are ready. */
  lemma SilentUntilRoused(s: Sys, step: Step)
    requires Shape(s) && Enabled(s, step) && Silent(s)
    ensures Silent(Do(s, step)) <==> !Rouses(s, step)
  {
    match step
    case OfHost(h) => SilentHost(s, h);
    case OfPoll(p) =>
    case OfWorklet(j) =>
      Callbacks.JsLeavesPoll(s, j);
      WakesHostExactly(s, j);
  }

  lemma WakesHostExactly(s: Sys, step: JsStep)
    requires Shape(s) && JsEnabled(s, step) && !s.q.threadWake
    ensures DoJs(s, step).q.threadWake <==> WakesHost(s, step)
  {
    match step
    case JWrite(chunk) => SendWakesExactly(s.(log := s.log.(handed := s.log.handed + chunk)), chunk);
    case JRetry =>
      if s.js.pendingWrite.Some? {
        SendWakesExactly(s, s.js.pendingWrite.value);
      }
    case JTurn(more) => TurnWakesExactly(s, more);
    case _ =>
  }

  lemma SendWakesExactly(s: Sys, chunk: seq<Byte>)
    requires !s.q.threadWake
    ensures DoSend(s, chunk).q.threadWake <==> s.q.thread.Listening() && Starts(s.q, chunk)
  {
  }

  lemma TurnWakesExactly(s: Sys, more: bool)
    requires !s.q.threadWake
    ensures DoTurn(s, more).q.threadWake <==>
            s.q.thread.Listening() && s.js.reading && s.q.toUv != [] && s.q.Full(s.q.toUv)
  {
  }

  lemma SilentHost(s: Sys, step: HostStep)
    requires Shape(s) && HostEnabled(s, step) && Silent(s)
    ensures Silent(DoHost(s, step)) <==> !Rouses(s, OfHost(step))
  {
    match step
    case HRead(n) => FetchFrame(s.q, s.host, n);
    case HWrite(data) => OwnWriteReadiness(s.q, Thread, s.heap.next, data);
    case _ =>
  }

  /** The poll's thread takes a wake and loads what was asked for. */
  lemma LoadsEvents(s: Sys, rest: seq<Step>, t: Sys) returns (steps: seq<Step>)
    requires s.host.Valid() && s.q.threadWake && !s.q.thread.Idle? && Started(s.poll) && s.poll.pc.Asleep?
    requires t == s.(q := s.q.(threadWake := false), poll := s.poll.(pc := Asked(s.poll.events), loaded := s.poll.events))
    requires Legal(t, rest) && rest != []
    ensures Legal(s, steps) && After(s, steps) == After(t, rest)
    ensures steps != [] && steps[|steps| - 1] == rest[|rest| - 1]
  {
    var s1 := Do(s, OfPoll(Wake));
    var s2 := Do(s1, OfPoll(LoadCallback));
    assert Do(s2, OfPoll(LoadEvents)) == t;
    steps := Prefix(s2, OfPoll(LoadEvents), rest);
    steps := Prefix(s1, OfPoll(LoadCallback), steps);
    steps := Prefix(s, OfPoll(Wake), steps);
  }

  /** It takes a wake, finds the ipc readable, calls back, and the callback returns without reading. */
  lemma CallbackReturns(s: Sys) returns (steps: seq<Step>)
    requires s.host.Valid() && s.op.Unlocked? && s.q.threadWake && !s.q.thread.Idle? && HostReadable(s.q, s.host)
    requires Started(s.poll) && s.poll.pc.Asleep? && s.poll.owed == 0 && s.poll.events == Events(true, false)
    ensures Legal(s, steps) && steps != [] && steps[|steps| - 1] == OfPoll(Return)
    ensures After(s, steps) == s.(q := s.q.(threadWake := false), told := s.told.(readable := true),
                                  poll := s.poll.(loaded := Events(true, false)))
  {
    var s3 := s.(q := s.q.(threadWake := false),
                  poll := s.poll.(pc := Asked(Events(true, false)), loaded := Events(true, false)));
    var s4 := Do(s3, OfPoll(CheckReadable));
    var s5 := Do(s4, OfPoll(CheckWritable));
    assert s5.poll.pc == Calling(Events(true, false));
    steps := [];
    steps := Prefix(s5, OfPoll(Return), steps);
    steps := Prefix(s4, OfPoll(CheckWritable), steps);
    steps := Prefix(s3, OfPoll(CheckReadable), steps);
    steps := LoadsEvents(s, steps, s3);
  }

  /** The host opens its end and starts a poll for readable. */
  lemma StartsPoll(s: Sys, rest: seq<Step>, t: Sys) returns (steps: seq<Step>)
    requires HostEnabled(s, HostStep.Open) && s.host == Host(false, None, 0) && s.op.Unlocked?
    requires s.poll == Poll(false, false, Events(false, false), 0, Asleep, Events(false, false))
    requires t == s.(q := OpenThread(s.q).0.(threadWake := true), host := Host(true, None, 0),
                     poll := Poll(true, true, Events(true, false), 0, Asleep, Events(false, false)),
                 told := Told(false, false, false))
    requires Legal(t, rest) && rest != []
    ensures Legal(s, steps) && After(s, steps) == After(t, rest)
    ensures steps != [] && steps[|steps| - 1] == rest[|rest| - 1]
  {
    var s1 := Do(s, OfHost(HostStep.Open));
    var s2 := Do(s1, OfPoll(Attach));
    var s3 := Do(s2, OfPoll(StartEvents(Events(true, false))));
    var s4 := Do(s3, OfPoll(StartCallback));
    var s5 := Do(s4, OfPoll(StartSignal));
    assert s5 == t;
    steps := Prefix(s4, OfPoll(StartSignal), rest);
    steps := Prefix(s3, OfPoll(StartCallback), steps);
    steps := Prefix(s2, OfPoll(StartEvents(Events(true, false))), steps);
    steps := Prefix(s1, OfPoll(Attach), steps);
    steps := Prefix(s, OfHost(HostStep.Open), steps);
  }

  /** A run that leaves a poll asleep whose callback has returned, though the ipc is still readable. */
  lemma NotLevelTriggered(capacity: nat, maxChunk: nat) returns (steps: seq<Step>)
    requires capacity > 1 && maxChunk > 0
    ensures Legal(Init(capacity, maxChunk), steps) && steps != [] && steps[|steps| - 1] == OfPoll(Return)
    ensures var s := After(Init(capacity, maxChunk), steps);
            && Silent(s) && Started(s.poll) && s.poll.events.readable
            && s.host.port && s.q.toThread != [] && HostReadable(s.q, s.host)
  {
    var s := Init(capacity, maxChunk);
    var s1 := Do(s, OfWorklet(JOpen));
    var s2 := Do(s1, OfWorklet(JWrite([0])));
    WorkletWrites(s1);
    var t := s2.(q := OpenThread(s2.q).0.(threadWake := true), host := Host(true, None, 0),
                 poll := Poll(true, true, Events(true, false), 0, Asleep, Events(false, false)),
                 told := Told(false, false, false));
    steps := CallbackReturns(t);
    steps := StartsPoll(s2, steps, t);
    steps := Prefix(s1, OfWorklet(JWrite([0])), steps);
    steps := Prefix(s, OfWorklet(JOpen), steps);
  }

  lemma WorkletWrites(s: Sys)
    requires s.q.Writable(Uv) && s.q.uv.Open? && s.q.thread.Idle?
    ensures var t := DoJs(s, JWrite([0]));
            && t == s.(q := t.q, js := t.js, log := t.log, heap := t.heap)
            && t.q == s.q.(toThread := s.q.toThread + [Message(s.heap.next, [0])])
  {
    SendLog(s.(log := s.log.(handed := s.log.handed + [0])), [0]);
  }
}
