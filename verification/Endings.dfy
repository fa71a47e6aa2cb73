/** What an end or a close of either end leads to, in every run that contains it. */
module Endings {
  import opened Options
  import opened Rings
  import opened QueueModel
  import opened QueueLaws
  import opened HostModel
  import opened StreamModel
  import opened System
  import opened Conservation

  // Ends move forward

  lemma HostMovesForward(s: Sys, step: HostStep)
    requires Shape(s) && HostEnabled(s, step)
    ensures var t := DoHost(s, step);
            t.q.uv == s.q.uv && s.q.thread.Rank() <= t.q.thread.Rank()
  {
    match step
    case HRead(n) => FetchFrame(s.q, s.host, n);
    case HWrite(data) => WriteAfterEnd(s.q, Thread, s.heap.next, data, Thread);
    case _ =>
  }

  lemma MovesForward(s: Sys, step: Step)
    requires Shape(s) && Enabled(s, step)
    ensures var t := Do(s, step);
            s.q.uv.Rank() <= t.q.uv.Rank() && s.q.thread.Rank() <= t.q.thread.Rank()
  {
    match step
    case OfHost(h) => HostMovesForward(s, h);
    case OfPoll(p) => PollFrame(s, p);
    case OfWorklet(j) => JsLeavesHost(s, j);
  }

  lemma {:induction false} RunMovesForward(s: Sys, steps: seq<Step>)
    requires Shape(s) && Legal(s, steps)
    ensures var t := After(s, steps);
            Shape(t) && s.q.uv.Rank() <= t.q.uv.Rank() && s.q.thread.Rank() <= t.q.thread.Rank()
    decreases |steps|
  {
    if steps != [] {
      StepKeepsShape(s, steps[0]);
      MovesForward(s, steps[0]);
      RunMovesForward(Do(s, steps[0]), steps[1..]);
    }
  }

  /** How far a step takes the worklet's end, and the host's. */
  function UvReaches(step: Step): nat {
    if step == OfWorklet(JClose) then Closed.Rank() else if step == OfWorklet(JFinal) then Ended.Rank() else 0
  }

  function ThreadReaches(step: Step): nat {
    if step == OfHost(HClose) then Closed.Rank() else if step == OfHost(HEnd) then Ended.Rank() else 0
  }

  lemma StepReaches(s: Sys, step: Step)
    requires Shape(s) && Enabled(s, step)
    ensures UvReaches(step) <= Do(s, step).q.uv.Rank()
    ensures ThreadReaches(step) <= Do(s, step).q.thread.Rank()
  {
    match step
    case OfHost(h) => HostReaches(s, h);
    case OfPoll(p) =>
    case OfWorklet(j) => JsReaches(s, j);
  }

  lemma HostReaches(s: Sys, step: HostStep)
    requires Shape(s) && HostEnabled(s, step)
    ensures ThreadReaches(OfHost(step)) <= DoHost(s, step).q.thread.Rank()
  {
    match step
    case HEnd => AdvanceReaches(s.q, Thread, Ended);
    case HClose => AdvanceReaches(s.q, Thread, Closed);
    case _ =>
  }

  lemma JsReaches(s: Sys, step: JsStep)
    requires Shape(s) && JsEnabled(s, step)
    ensures UvReaches(OfWorklet(step)) <= DoJs(s, step).q.uv.Rank()
  {
    match step
    case JFinal => AdvanceReaches(s.q, Uv, Ended);
    case JClose => AdvanceReaches(s.q, Uv, Closed);
    case _ =>
  }

  /** A run takes each end as far as any of its steps does. */
  lemma {:induction false} RunReaches(s: Sys, steps: seq<Step>, step: Step)
    requires Shape(s) && Legal(s, steps) && step in steps
    ensures var t := After(s, steps);
            Shape(t) && UvReaches(step) <= t.q.uv.Rank() && ThreadReaches(step) <= t.q.thread.Rank()
    decreases |steps|
  {
    var t, rest := Do(s, steps[0]), steps[1..];
    StepKeepsShape(s, steps[0]);
    RunMovesForward(t, rest);
    if steps[0] == step {
      StepReaches(s, step);
    } else {
      RunReaches(t, rest, step);
    }
  }

  // The worklet's exit and its half-close

  /** Once a run contains the worklet's exit, host reads never block and host writes never succeed. */
  lemma ExitIsSeen(capacity: nat, maxChunk: nat, steps: seq<Step>, n: nat, id: nat, data: seq<Byte>)
    requires capacity > 0 && Legal(Init(capacity, maxChunk), steps) && OfWorklet(JClose) in steps
    requires n > 0 && data != []
    ensures var s := After(Init(capacity, maxChunk), steps);
            && s.host.Valid() && !Fetch(s.q, s.host, n).2.Blocked?
            && Write(s.q, Thread, id, data) == (s.q, Rejected)
  {
    InitHasShape(capacity, maxChunk);
    RunReaches(Init(capacity, maxChunk), steps, OfWorklet(JClose));
    var s := After(Init(capacity, maxChunk), steps);
    FetchOutcomeIsExact(s.q, s.host, n);
    WriteIsRejectedExactly(s.q, Thread, id, data);
  }

  /** And a host that keeps reading reaches the end within as many reads as bytes remain, whatever else runs. */
  lemma ExitReachesHost(capacity: nat, maxChunk: nat, steps: seq<Step>, more: seq<Step>)
    requires capacity > 0 && Legal(Init(capacity, maxChunk), steps) && OfWorklet(JClose) in steps
    requires Legal(After(Init(capacity, maxChunk), steps), more)
    ensures var s := After(Init(capacity, maxChunk), steps);
            var t := After(s, more);
            s.host.port && t.host.port && Reads(more) > |Unread(s.q, s.host)| ==> t.log.hostEof
  {
    InitHasShape(capacity, maxChunk);
    RunReaches(Init(capacity, maxChunk), steps, OfWorklet(JClose));
    RunConserves(Init(capacity, maxChunk), steps);
    var s := After(Init(capacity, maxChunk), steps);
    if s.host.port {
      ReadsAfterExitAreCounted(s, more);
    }
  }

  /** Once the worklet has ended its writes, host reads never block, and the worklet writes no more. */
  lemma FinalIsSeen(capacity: nat, maxChunk: nat, steps: seq<Step>, n: nat, id: nat, chunk: seq<Byte>)
    requires capacity > 0 && Legal(Init(capacity, maxChunk), steps) && OfWorklet(JFinal) in steps
    requires n > 0 && chunk != []
    ensures var s := After(Init(capacity, maxChunk), steps);
            && s.host.Valid() && !Fetch(s.q, s.host, n).2.Blocked?
            && Write(s.q, Uv, id, chunk) == (s.q, Rejected)
  {
    InitHasShape(capacity, maxChunk);
    RunReaches(Init(capacity, maxChunk), steps, OfWorklet(JFinal));
    var s := After(Init(capacity, maxChunk), steps);
    FetchOutcomeIsExact(s.q, s.host, n);
    WriteIsRejectedExactly(s.q, Uv, id, chunk);
  }

  // The host's close and its half-close

  /** Once a run contains the host's end or close, the worklet's reader never blocks, and host writes fail. */
  lemma HostEndIsSeen(capacity: nat, maxChunk: nat, steps: seq<Step>, id: nat, data: seq<Byte>)
    requires capacity > 0 && Legal(Init(capacity, maxChunk), steps) && data != []
    requires OfHost(HEnd) in steps || OfHost(HClose) in steps
    ensures var s := After(Init(capacity, maxChunk), steps);
            && !Read(s.q, Uv).1.ReadBlocked?
            && Write(s.q, Thread, id, data) == (s.q, Rejected)
  {
    InitHasShape(capacity, maxChunk);
    RunReaches(Init(capacity, maxChunk), steps, if OfHost(HEnd) in steps then OfHost(HEnd) else OfHost(HClose));
    var s := After(Init(capacity, maxChunk), steps);
    ReadableIsExact(s.q, Uv);
    WriteIsRejectedExactly(s.q, Thread, id, data);
  }

  /** Once a run contains the host's close, a chunk that the worklet writes or had parked is dropped, and told so. */
  lemma CloseDropsChunks(capacity: nat, maxChunk: nat, steps: seq<Step>, chunk: seq<Byte>)
    requires capacity > 0 && Legal(Init(capacity, maxChunk), steps) && OfHost(HClose) in steps && chunk != []
    ensures var s := After(Init(capacity, maxChunk), steps);
            var t := DoSend(s, chunk);
            t.log == s.log.(dropped := true) && t.q == s.q && t.js.pendingWrite.None?
    ensures var s := After(Init(capacity, maxChunk), steps);
            s.js.pendingWrite.Some? ==>
              var t := DoRetry(s); t.log == s.log.(dropped := true) && t.q == s.q && t.js.pendingWrite.None?
  {
    InitHasShape(capacity, maxChunk);
    RunReaches(Init(capacity, maxChunk), steps, OfHost(HClose));
    var s := After(Init(capacity, maxChunk), steps);
    ClosedDrops(s, chunk);
    if s.js.pendingWrite.Some? {
      ClosedDrops(s, s.js.pendingWrite.value);
    }
  }

  lemma ClosedDrops(s: Sys, chunk: seq<Byte>)
    requires s.q.thread.Closed? && chunk != []
    ensures var t := DoSend(s, chunk);
            t.log == s.log.(dropped := true) && t.q == s.q && t.js.pendingWrite.None?
  {
    WriteIsRejectedExactly(s.q, Uv, s.heap.next, chunk);
    SendLog(s, chunk);
  }

  // The last share

  lemma StaysDestroyed(s: Sys, step: Step)
    requires Shape(s) && Enabled(s, step)
    ensures s.q.destroyed || step == OfWorklet(JDestroy) ==> Do(s, step).q.destroyed
  {
    match step
    case OfHost(h) => HostLeavesDestroyed(s, h);
    case OfPoll(p) => PollFrame(s, p);
    case OfWorklet(j) => JsLeavesDestroyed(s, j);
  }

  lemma HostLeavesDestroyed(s: Sys, step: HostStep)
    requires Shape(s) && HostEnabled(s, step)
    ensures DoHost(s, step).q.destroyed == s.q.destroyed
  {
    match step
    case HRead(n) => FetchFrame(s.q, s.host, n);
    case _ =>
  }

  lemma JsLeavesDestroyed(s: Sys, step: JsStep)
    requires Shape(s) && JsEnabled(s, step)
    ensures s.q.destroyed || step.JDestroy? ==> DoJs(s, step).q.destroyed
  {
    match step
    case JWrite(chunk) => SendLeavesHost(s.(log := s.log.(handed := s.log.handed + chunk)), chunk);
    case JRetry => RetryLeavesHost(s);
    case JTurn(more) => TurnLog(s, more);
    case _ =>
  }

  lemma {:induction false} RunDestroys(s: Sys, steps: seq<Step>)
    requires Shape(s) && Legal(s, steps)
    ensures Shape(After(s, steps))
    ensures s.q.destroyed || OfWorklet(JDestroy) in steps ==> After(s, steps).q.destroyed
    decreases |steps|
  {
    if steps != [] {
      StepKeepsShape(s, steps[0]);
      StaysDestroyed(s, steps[0]);
      RunDestroys(Do(s, steps[0]), steps[1..]);
    }
  }

  /** Once the worklet's share is given up, and the host's too or never taken, the queue and all that it held are gone. */
  lemma LastShareFrees(capacity: nat, maxChunk: nat, steps: seq<Step>)
    requires capacity > 0 && Legal(Init(capacity, maxChunk), steps) && OfWorklet(JDestroy) in steps
    ensures var s := After(Init(capacity, maxChunk), steps);
            && (s.gone <==> !s.q.thread.Listening())
            && (OfHost(HClose) in steps ==> s.gone)
            && (s.gone ==> s.q.toUv == [] && s.q.toThread == [])
  {
    InitHasShape(capacity, maxChunk);
    RunDestroys(Init(capacity, maxChunk), steps);
    if OfHost(HClose) in steps {
      RunReaches(Init(capacity, maxChunk), steps, OfHost(HClose));
    }
  }

  // Opening late

  /** Messages that wait for an open worklet end have a wake pending. */
  ghost predicate Unheard(s: Sys) {
    s.q.uv.Listening() && s.q.toUv != [] ==> s.q.uvWake
  }

  lemma HostKeepsUnheard(s: Sys, step: HostStep)
    requires Shape(s) && Unheard(s) && HostEnabled(s, step)
    ensures Unheard(DoHost(s, step))
  {
    match step
    case HRead(n) => FetchWakesUv(s.q, s.host, n);
    case _ =>
  }

  lemma FetchWakesUv(q: Queue, h: Host, n: nat)
    requires q.Valid() && h.Valid() && n > 0
    ensures var q' := Fetch(q, h, n).0; q'.toUv == q.toUv && q'.uv == q.uv && (q.uvWake ==> q'.uvWake)
  {
    FetchFrame(q, h, n);
  }

  lemma JsKeepsUnheard(s: Sys, step: JsStep)
    requires Shape(s) && Unheard(s) && JsEnabled(s, step) && step != JWake
    ensures Unheard(DoJs(s, step))
  {
    match step
    case JOpen => OpenIsHeard(s);
    case JWrite(chunk) => SendKeepsUnheard(s.(log := s.log.(handed := s.log.handed + chunk)), chunk);
    case JTurn(more) => TurnKeepsUnheard(s, more);
    case JRetry =>
      if s.js.pendingWrite.Some? {
        SendKeepsUnheard(s, s.js.pendingWrite.value);
      }
    case _ =>
  }

  lemma OpenIsHeard(s: Sys)
    requires Shape(s) && JsEnabled(s, JOpen)
    ensures Unheard(DoJs(s, JOpen))
  {
    if s.q.toUv != [] {
      OpenCatchesUp(s.q, Uv);
    }
  }

  lemma SendKeepsUnheard(s: Sys, chunk: seq<Byte>)
    requires s.q.Valid() && Unheard(s)
    ensures Unheard(DoSend(s, chunk))
  {
    SendFrame(s.q, s.js.(pendingWrite := None), s.heap.next, chunk);
  }

  lemma TurnKeepsUnheard(s: Sys, more: bool)
    requires Unheard(s)
    ensures Unheard(DoTurn(s, more))
  {
    TurnLog(s, more);
  }

  lemma StepKeepsUnheard(s: Sys, step: Step)
    requires Shape(s) && Unheard(s) && Enabled(s, step) && step != OfWorklet(JWake)
    ensures Unheard(Do(s, step))
  {
    match step
    case OfHost(h) => HostKeepsUnheard(s, h);
    case OfPoll(p) => PollFrame(s, p);
    case OfWorklet(j) => JsKeepsUnheard(s, j);
  }

  lemma {:induction false} RunKeepsUnheard(s: Sys, steps: seq<Step>)
    requires Shape(s) && Unheard(s) && Legal(s, steps) && OfWorklet(JWake) !in steps
    ensures Unheard(After(s, steps))
    decreases |steps|
  {
    if steps != [] {
      StepKeepsShape(s, steps[0]);
      StepKeepsUnheard(s, steps[0]);
      RunKeepsUnheard(Do(s, steps[0]), steps[1..]);
    }
  }

  /**
   In every interleaving, until the worklet takes its first wake it has one
   pending if messages wait, also those from before its open.
   */
  lemma EarlyMessagesAreHeard(capacity: nat, maxChunk: nat, steps: seq<Step>)
    requires capacity > 0 && Legal(Init(capacity, maxChunk), steps) && OfWorklet(JWake) !in steps
    ensures var q := After(Init(capacity, maxChunk), steps).q;
            q.uv.Listening() && q.toUv != [] ==> q.uvWake
  {
    InitHasShape(capacity, maxChunk);
    RunKeepsUnheard(Init(capacity, maxChunk), steps);
  }
}
