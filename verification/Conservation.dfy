/** What every interleaving conserves: bytes, messages, and the buffers that carry them. */
module Conservation {
  import opened Options
  import opened Rings
  import opened QueueModel
  import opened HostModel
  import opened StreamModel
  import opened System

  // Streams

  /** The part of a chunk that the queue has not taken. */
  function Parked(js: Js): seq<Byte> {
    if js.pendingWrite.Some? then js.pendingWrite.value else []
  }

  /** Worklet bytes reach the host once, in order, and wait where they can be named. */
  ghost predicate BytesConserved(s: Sys) {
    && (s.host.port || (s.q.thread.Idle? && !s.gone) ==> s.log.accepted == s.log.hostRead + Unread(s.q, s.host))
    && (!s.log.dropped ==> s.log.handed == s.log.accepted + Parked(s.js))
    && (s.log.dropped ==> s.q.uv.Closed? || s.q.thread.Closed?)
  }

  /** Host writes reach the worklet's reader once, in order, with their boundaries. */
  ghost predicate MessagesConserved(s: Sys) {
    if s.gone then s.log.pushed <= s.log.hostSent else s.log.hostSent == s.log.pushed + s.q.toUv
  }

  /** End-of-stream is read only once nothing is left to read. */
  ghost predicate EndsAreExact(s: Sys) {
    && (s.log.hostEof && s.host.port ==> s.q.uv.Rank() >= Ended.Rank() && Unread(s.q, s.host) == [])
    && (s.log.hostEof ==> !s.q.thread.Idle?)
    && (s.log.workletEof ==> s.q.thread.Rank() >= Ended.Rank() && s.log.pushed == s.log.hostSent && s.q.toUv == [])
  }

  ghost predicate Conserved(s: Sys) {
    Shape(s) && BytesConserved(s) && MessagesConserved(s) && EndsAreExact(s)
  }

  /** Two states between which no byte moves and no end moves back. */
  ghost predicate Quiet(s: Sys, s': Sys) {
    && s'.log == s.log && s'.host == s.host && s'.gone == s.gone
    && s'.q.toUv == s.q.toUv && s'.q.toThread == s.q.toThread
    && s'.js.pendingWrite == s.js.pendingWrite
    && s.q.uv.Rank() <= s'.q.uv.Rank() && s.q.thread.Rank() <= s'.q.thread.Rank()
  }

  lemma QuietConserves(s: Sys, s': Sys)
    requires Conserved(s) && Shape(s') && Quiet(s, s')
    ensures Conserved(s')
  {
  }

  lemma ReadBytesConserve(s: Sys, s': Sys, bytes: seq<Byte>)
    requires Conserved(s) && Shape(s') && bytes != []
    requires Unread(s.q, s.host) == bytes + Unread(s'.q, s'.host)
    requires s'.log == s.log.(hostRead := s.log.hostRead + bytes)
    requires s'.q.toUv == s.q.toUv && s'.q.uv == s.q.uv && s'.q.thread == s.q.thread
    requires s'.host.port == s.host.port && s'.js == s.js && s'.gone == s.gone
    ensures Conserved(s')
  {
    var rest := Unread(s'.q, s'.host);
    assert s.log.hostRead + (bytes + rest) == (s.log.hostRead + bytes) + rest;
  }

  lemma ReadNothingConserves(s: Sys, s': Sys, eof: bool)
    requires Conserved(s) && Shape(s') && !s.q.thread.Idle?
    requires Unread(s'.q, s'.host) == Unread(s.q, s.host)
    requires s'.log == s.log.(hostEof := s.log.hostEof || eof)
    requires s'.q == s.q && s'.host.port == s.host.port && s'.js == s.js && s'.gone == s.gone
    requires eof && s.host.port ==> Unread(s.q, s.host) == [] && s.q.uv.Rank() >= Ended.Rank()
    ensures Conserved(s')
  {
  }

  lemma HostReadConserves(s: Sys, n: nat)
    requires Conserved(s) && HostEnabled(s, HRead(n))
    ensures Conserved(DoHostRead(s, n))
  {
    HostReadKeepsShape(s, n);
    FetchFrame(s.q, s.host, n);
    FetchTakesPrefix(s.q, s.host, n);
    FetchOutcomeIsExact(s.q, s.host, n);
    HostReadLog(s, n);
    match Fetch(s.q, s.host, n).2
    case Blocked => ReadNothingConserves(s, DoHostRead(s, n), false);
    case Eof => ReadNothingConserves(s, DoHostRead(s, n), true);
    case Bytes(bytes) => ReadBytesConserve(s, DoHostRead(s, n), bytes);
  }

  lemma HostWriteConserves(s: Sys, data: seq<Byte>)
    requires Conserved(s)
    ensures Conserved(DoHostWrite(s, data))
  {
    HostWriteKeepsShape(s, data);
    if s.host.port && data != [] {
      HostWriteLog(s, data);
      var result := Write(s.q, Thread, s.heap.next, data).1;
      if result.Written? {
        var m := Message(s.heap.next, data[..result.n]);
        assert s.log.pushed + (s.q.toUv + [m]) == (s.log.pushed + s.q.toUv) + [m];
      }
    }
  }

  lemma HostCloseConserves(s: Sys)
    requires Conserved(s) && HostEnabled(s, HClose)
    ensures Conserved(DoHostClose(s))
  {
    HostKeepsShape(s, HClose);
  }

  lemma HostConserves(s: Sys, step: HostStep)
    requires Conserved(s) && HostEnabled(s, step)
    ensures Conserved(DoHost(s, step))
  {
    HostKeepsShape(s, step);
    match step
    case Open =>
    case HRead(n) => HostReadConserves(s, n);
    case HWrite(data) => HostWriteConserves(s, data);
    case HClose => HostCloseConserves(s);
    case HEnd => QuietConserves(s, DoHost(s, step));
    case Check => QuietConserves(s, DoHost(s, step));
    case Signal => QuietConserves(s, DoHost(s, step));
  }

  lemma PollConserves(s: Sys, step: PollStep)
    requires Conserved(s) && PollEnabled(s, step)
    ensures Conserved(DoPoll(s, step))
  {
    PollKeepsShape(s, step);
    PollFrame(s, step);
    QuietConserves(s, DoPoll(s, step));
  }

  /** A send with what it was given already counted as handed over. */
  lemma SendConserves(s: Sys, chunk: seq<Byte>)
    requires Shape(s) && s.live && !s.finalled
    requires BytesConserved(s.(js := s.js.(pendingWrite := Some(chunk))))
    requires MessagesConserved(s) && EndsAreExact(s)
    ensures Conserved(DoSend(s, chunk))
  {
    SendKeepsShape(s, chunk);
    if chunk != [] {
      SendLog(s, chunk);
      var result := Send(s.q, s.js.(pendingWrite := None), s.heap.next, chunk).2;
      if result.Written? {
        AcceptedConserves(s, DoSend(s, chunk), chunk, result.n);
      }
    }
  }

  lemma AcceptedConserves(s: Sys, s': Sys, chunk: seq<Byte>, n: nat)
    requires BytesConserved(s.(js := s.js.(pendingWrite := Some(chunk)))) && n <= |chunk|
    requires s'.q == s.q.(toThread := s.q.toThread + [Message(s.heap.next, chunk[..n])], threadWake := s'.q.threadWake)
    requires s'.host == s.host && s'.gone == s.gone
    requires s'.js.pendingWrite == (if n < |chunk| then Some(chunk[n..]) else None)
    requires s'.log == s.log.(accepted := s.log.accepted + chunk[..n])
    ensures BytesConserved(s')
  {
    UnreadGrows(s.q, s.host, Message(s.heap.next, chunk[..n]));
    assert Unread(s'.q, s'.host) == Unread(s.q, s.host) + chunk[..n];
    assert s.log.hostRead + (Unread(s.q, s.host) + chunk[..n]) == (s.log.hostRead + Unread(s.q, s.host)) + chunk[..n];
    assert s.log.accepted + chunk == (s.log.accepted + chunk[..n]) + chunk[n..];
  }

  lemma TurnConserves(s: Sys, more: bool)
    requires Conserved(s) && s.live
    ensures Conserved(DoTurn(s, more))
  {
    TurnKeepsShape(s, more);
    TurnLog(s, more);
    if s.js.reading && s.q.toUv != [] {
      PushConserves(s, DoTurn(s, more));
    }
  }

  lemma PushConserves(s: Sys, s': Sys)
    requires Conserved(s) && Shape(s') && s.q.toUv != []
    requires s'.q == s.q.(toUv := s.q.toUv[1..], threadWake := s'.q.threadWake)
    requires s'.host == s.host && s'.gone == s.gone && s'.js.pendingWrite == s.js.pendingWrite
    requires s'.log == s.log.(pushed := s.log.pushed + [s.q.toUv[0]])
    ensures Conserved(s')
  {
    assert s.q.toUv == [s.q.toUv[0]] + s.q.toUv[1..];
    assert s.log.pushed + ([s.q.toUv[0]] + s.q.toUv[1..]) == (s.log.pushed + [s.q.toUv[0]]) + s.q.toUv[1..];
  }

  lemma MarksConserve(s: Sys, step: JsStep)
    requires Conserved(s) && JsEnabled(s, step) && Marks(step)
    ensures Conserved(DoJs(s, step))
  {
    JsKeepsShape(s, step);
    MarksMoveNothing(s, step);
    QuietConserves(s, DoJs(s, step));
  }

  lemma FinalizeConserves(s: Sys, i: nat)
    requires Conserved(s)
    ensures Conserved(DoFinalize(s, i))
  {
    FinalizeKeepsShape(s, i);
    QuietConserves(s, DoFinalize(s, i));
  }

  lemma JsConserves(s: Sys, step: JsStep)
    requires Conserved(s) && JsEnabled(s, step)
    ensures Conserved(DoJs(s, step))
  {
    if Marks(step) {
      MarksConserve(s, step);
    } else {
      match step
      case JWrite(chunk) => SendConserves(s.(log := s.log.(handed := s.log.handed + chunk)), chunk);
      case JTurn(more) => TurnConserves(s, more);
      case JRetry => RetryConserves(s);
      case JFinalize(i) => FinalizeConserves(s, i);
      case JDestroy => DestroyConserves(s);
    }
  }

  lemma RetryConserves(s: Sys)
    requires Conserved(s) && JsEnabled(s, JRetry)
    ensures Conserved(DoRetry(s))
  {
    JsKeepsShape(s, JRetry);
    if s.js.pendingWrite.Some? {
      assert s.(js := s.js.(pendingWrite := Some(s.js.pendingWrite.value))) == s;
      SendConserves(s, s.js.pendingWrite.value);
      QuietConserves(DoSend(s, s.js.pendingWrite.value), DoRetry(s));
    } else {
      QuietConserves(s, DoRetry(s));
    }
  }

  lemma DestroyConserves(s: Sys)
    requires Conserved(s) && JsEnabled(s, JDestroy)
    ensures Conserved(DoJs(s, JDestroy))
  {
    JsKeepsShape(s, JDestroy);
  }

  lemma StepConserves(s: Sys, step: Step)
    requires Conserved(s) && Enabled(s, step)
    ensures Conserved(Do(s, step))
  {
    match step
    case OfHost(h) => HostConserves(s, h);
    case OfPoll(p) => PollConserves(s, p);
    case OfWorklet(j) => JsConserves(s, j);
  }

  lemma {:induction false} RunConserves(s: Sys, steps: seq<Step>)
    requires Conserved(s) && Legal(s, steps)
    ensures Conserved(After(s, steps))
    decreases |steps|
  {
    if steps != [] {
      StepConserves(s, steps[0]);
      RunConserves(Do(s, steps[0]), steps[1..]);
    }
  }

  /**
   In every interleaving and for all read sizes, until an end closes: what the
   worklet handed over is what the host read, then what is pending, then what the
   ring holds, then what is parked.
   */
  lemma WorkletBytesReachHost(capacity: nat, maxChunk: nat, steps: seq<Step>)
    requires capacity > 0 && Legal(Init(capacity, maxChunk), steps)
    ensures var s := After(Init(capacity, maxChunk), steps);
            !s.q.uv.Closed? && !s.q.thread.Closed? ==>
              s.log.handed == s.log.hostRead + s.host.Rest() + Flatten(s.q.toThread) + Parked(s.js)
  {
    RunConserves(Init(capacity, maxChunk), steps);
    var s := After(Init(capacity, maxChunk), steps);
    if !s.q.uv.Closed? && !s.q.thread.Closed? {
      assert s.log.accepted == s.log.hostRead + (s.host.Rest() + Flatten(s.q.toThread));
    }
  }

  /**
   In every interleaving what the worklet's reader got is a prefix of the host's
   accepted writes, message by message. Until the queue is freed the ring holds
   exactly the others, and the reader is given its end only after all of them.
   */
  lemma HostWritesReachWorklet(capacity: nat, maxChunk: nat, steps: seq<Step>)
    requires capacity > 0 && Legal(Init(capacity, maxChunk), steps)
    ensures var s := After(Init(capacity, maxChunk), steps);
            && (!s.gone ==> s.log.hostSent == s.log.pushed + s.q.toUv)
            && s.log.pushed <= s.log.hostSent
            && (s.log.workletEof ==> s.log.pushed == s.log.hostSent && s.q.thread.Rank() >= Ended.Rank())
  {
    RunConserves(Init(capacity, maxChunk), steps);
  }

  // End of the stream

  /** While the port is open, a read returns 0 exactly when the worklet has ended and every accepted byte was read. */
  lemma HostEofIsExact(capacity: nat, maxChunk: nat, steps: seq<Step>, n: nat)
    requires capacity > 0 && Legal(Init(capacity, maxChunk), steps) && n > 0
    ensures var s := After(Init(capacity, maxChunk), steps);
            && s.host.Valid()
            && (s.host.port ==>
                  (Fetch(s.q, s.host, n).2.Eof? <==>
                   s.q.uv.Rank() >= Ended.Rank() && s.log.hostRead == s.log.accepted))
  {
    RunConserves(Init(capacity, maxChunk), steps);
    var s := After(Init(capacity, maxChunk), steps);
    FetchOutcomeIsExact(s.q, s.host, n);
    if s.host.port && s.log.hostRead == s.log.accepted {
      assert |s.log.hostRead| + |Unread(s.q, s.host)| == |s.log.accepted|;
    }
  }

  lemma HostPortNeverReopens(s: Sys, step: HostStep)
    requires Shape(s) && HostEnabled(s, step) && !s.q.thread.Idle?
    ensures !DoHost(s, step).q.thread.Idle?
    ensures DoHost(s, step).host.port ==> s.host.port
    ensures s.log.hostEof && DoHost(s, step).host.port ==> DoHost(s, step).log.hostEof
  {
    match step
    case HRead(n) =>
      FetchFrame(s.q, s.host, n);
      HostReadLog(s, n);
    case _ =>
  }

  lemma PortNeverReopens(s: Sys, step: Step)
    requires Shape(s) && Enabled(s, step) && !s.q.thread.Idle?
    ensures !Do(s, step).q.thread.Idle?
    ensures Do(s, step).host.port ==> s.host.port
    ensures s.log.hostEof && Do(s, step).host.port ==> Do(s, step).log.hostEof
  {
    match step
    case OfHost(h) => HostPortNeverReopens(s, h);
    case OfPoll(p) => PollFrame(s, p);
    case OfWorklet(j) => JsLeavesHost(s, j);
  }

  /** Once a read has returned 0, every later read returns 0, whatever else runs. */
  lemma {:induction false} HostEofIsFinal(s: Sys, steps: seq<Step>, n: nat)
    requires Conserved(s) && Legal(s, steps) && n > 0
    requires s.log.hostEof && !s.q.thread.Idle?
    ensures var t := After(s, steps); t.host.Valid() && Fetch(t.q, t.host, n).2.Eof?
    decreases |steps|
  {
    if steps == [] {
      FetchOutcomeIsExact(s.q, s.host, n);
    } else {
      var t := Do(s, steps[0]);
      StepConserves(s, steps[0]);
      PortNeverReopens(s, steps[0]);
      if t.host.port {
        HostEofIsFinal(t, steps[1..], n);
      } else {
        ClosedReadsEof(t, steps[1..], n);
      }
    }
  }

  /** A closed ipc reads end-of-stream for good. */
  lemma {:induction false} ClosedReadsEof(s: Sys, steps: seq<Step>, n: nat)
    requires Shape(s) && Legal(s, steps) && n > 0
    requires !s.host.port && !s.q.thread.Idle?
    ensures var t := After(s, steps); t.host.Valid() && Fetch(t.q, t.host, n).2.Eof?
    decreases |steps|
  {
    if steps != [] {
      StepKeepsShape(s, steps[0]);
      PortNeverReopens(s, steps[0]);
      ClosedReadsEof(Do(s, steps[0]), steps[1..], n);
    }
  }

  // Exit

  /** How many of the steps are host reads. */
  function Reads(steps: seq<Step>): nat {
    if steps == [] then 0 else IsRead(steps[0]) + Reads(steps[1..])
  }

  function IsRead(step: Step): nat {
    if step.OfHost? && step.h.HRead? then 1 else 0
  }

  /** Once the worklet end is closed, each host read shrinks what is unread or reads the end; nothing grows it. */
  lemma StepAfterExit(s: Sys, step: Step)
    requires Conserved(s) && Enabled(s, step) && s.q.uv.Closed? && s.host.port
    ensures var t := Do(s, step);
            && t.q.uv.Closed?
            && (t.host.port ==>
                  |Unread(t.q, t.host)| + IsRead(step) <= |Unread(s.q, s.host)| || t.log.hostEof)
  {
    match step
    case OfHost(h) => HostAfterExit(s, h);
    case OfPoll(p) => PollFrame(s, p);
    case OfWorklet(j) => JsLeavesHost(s, j);
  }

  lemma HostAfterExit(s: Sys, step: HostStep)
    requires Conserved(s) && HostEnabled(s, step) && s.q.uv.Closed? && s.host.port
    ensures var t := DoHost(s, step);
            && t.q.uv.Closed?
            && (t.host.port ==>
                  |Unread(t.q, t.host)| + IsRead(OfHost(step)) <= |Unread(s.q, s.host)| || t.log.hostEof)
  {
    match step
    case HRead(n) =>
      FetchFrame(s.q, s.host, n);
      FetchTakesPrefix(s.q, s.host, n);
      FetchOutcomeIsExact(s.q, s.host, n);
      HostReadLog(s, n);
    case HWrite(data) => HostWriteKeepsShape(s, data);
    case _ =>
  }

  /** Once the worklet end is closed, host reads never block and host writes never succeed. */
  lemma AfterExitNothingBlocks(s: Sys, n: nat, id: nat, data: seq<Byte>)
    requires Shape(s) && s.q.uv.Closed? && n > 0 && data != []
    ensures !Fetch(s.q, s.host, n).2.Blocked?
    ensures Write(s.q, Thread, id, data).1.Rejected?
  {
    FetchOutcomeIsExact(s.q, s.host, n);
  }

  /** `k` reads later, either the end was read or that many bytes fewer remain. */
  ghost predicate ReadsCounted(s: Sys, t: Sys, k: nat) {
    t.host.port ==> t.log.hostEof || |Unread(t.q, t.host)| + k <= |Unread(s.q, s.host)|
  }

  lemma {:induction false} ReadsAfterExitAreCounted(s: Sys, steps: seq<Step>)
    requires Conserved(s) && Legal(s, steps) && s.q.uv.Closed? && s.host.port
    ensures ReadsCounted(s, After(s, steps), Reads(steps))
    decreases |steps|
  {
    if steps != [] {
      var t, rest := Do(s, steps[0]), steps[1..];
      StepAfterExit(s, steps[0]);
      StepConserves(s, steps[0]);
      if !t.host.port {
        PortNeverReopens(s, steps[0]);
        PortStaysClosed(t, rest);
      } else if t.log.hostEof {
        EofStays(t, rest);
      } else {
        ReadsAfterExitAreCounted(t, rest);
      }
    }
  }

  lemma {:induction false} PortStaysClosed(s: Sys, steps: seq<Step>)
    requires Shape(s) && Legal(s, steps) && !s.q.thread.Idle?
    ensures After(s, steps).host.port ==> s.host.port
    decreases |steps|
  {
    if steps != [] {
      StepKeepsShape(s, steps[0]);
      PortNeverReopens(s, steps[0]);
      PortStaysClosed(Do(s, steps[0]), steps[1..]);
    }
  }

  lemma {:induction false} EofStays(s: Sys, steps: seq<Step>)
    requires Shape(s) && Legal(s, steps) && !s.q.thread.Idle? && s.log.hostEof
    ensures After(s, steps).host.port ==> After(s, steps).log.hostEof
    decreases |steps|
  {
    if steps != [] {
      var t := Do(s, steps[0]);
      StepKeepsShape(s, steps[0]);
      PortNeverReopens(s, steps[0]);
      if t.host.port {
        EofStays(t, steps[1..]);
      } else {
        PortStaysClosed(t, steps[1..]);
      }
    }
  }
}
