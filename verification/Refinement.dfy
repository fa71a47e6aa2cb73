/** The methods of the objects are their steps in the concurrent system, run without a pause. */
module Refinement {
  import opened Options
  import opened Rings
  import opened QueueModel
  import opened HostModel
  import opened StreamModel
  import opened Ipcs
  import opened System

  /** `Ipc.Read`: the fetch, then the check for more if bytes came, then the signal if there is more. */
  lemma ReadIsItsSteps(s: Sys, n: nat)
    requires Shape(s) && HostEnabled(s, HRead(n))
    ensures DoHost(s, HRead(n)).host.Valid()
    ensures var t := DoHost(s, HRead(n));
            var checked := if t.op.ReadCheck? then DoHost(t, Check) else t;
            var u := if checked.op.SignalOwed? then DoHost(checked, Signal) else checked;
            var (q, host, outcome) := ReadAlone(s.q, s.host, n);
            && u.q == q && u.host == host && u.op.Unlocked?
            && u.log.hostRead == s.log.hostRead + (if outcome.Bytes? then outcome.bytes else [])
            && (outcome.Eof? ==> u.log.hostEof)
  {
    HostKeepsShape(s, HRead(n));
  }

  /** `Ipc.Create`: the one section that opens the host end, which the object also refuses unless it was idle. */
  lemma CreateIsItsStep(s: Sys)
    ensures HostEnabled(s, HostStep.Open) <==> OpenThread(s.q).1 && !s.gone
    ensures OpenThread(s.q).1 && s.host.Valid() ==>
              DoHost(s, HostStep.Open) == s.(q := OpenThread(s.q).0, host := Host(true, None, 0))
  {
  }

  /** `Ipc.Write`: the queue's section, or none at all on a closed ipc. */
  lemma WriteIsItsStep(s: Sys, data: seq<Byte>)
    requires Shape(s) && HostEnabled(s, HWrite(data))
    ensures var t := DoHost(s, HWrite(data));
            var (q, result) := if s.host.port then Write(s.q, Thread, s.heap.next, data) else (s.q, Rejected);
            && t.q == q && t.host == s.host && t.op.Unlocked?
            && (result.Written? ==> result.n <= |data|)
            && (result.Written? && data != [] ==>
                  t.log.hostSent == s.log.hostSent + [Message(s.heap.next, data[..result.n])])
            && (!result.Written? ==> t.q == s.q && t.log == s.log)
  {
    if s.host.port && data != [] {
      HostWriteLog(s, data);
    }
  }

  /** `Ipc.End`: the queue's section, then the signal. */
  lemma EndIsItsSteps(s: Sys)
    requires Shape(s) && HostEnabled(s, HEnd) && s.host.port
    ensures DoHost(s, HEnd).host.Valid()
    ensures var t := DoHost(DoHost(s, HEnd), Signal);
            && t.q == Advance(s.q, Thread, Ended).0.(threadWake := true)
            && t.host == s.host && t.op.Unlocked? && !Advance(s.q, Thread, Ended).1
  {
  }

  /** `Ipc.Close`: the queue's section with the release of the buffers, then the signal. */
  lemma CloseIsItsSteps(s: Sys)
    requires Shape(s) && HostEnabled(s, HClose) && s.host.port
    ensures DoHost(s, HClose).host.Valid()
    ensures var t := DoHost(DoHost(s, HClose), Signal);
            var (q, unowned) := Advance(s.q, Thread, Closed);
            && t.q == (if unowned then q.(toUv := [], toThread := []) else q).(threadWake := true)
            && !t.host.port && t.host.pending.None? && t.op.Unlocked? && t.gone == (s.gone || unowned)
            && t.heap.freed == s.heap.freed + ((if unowned then q.toUv + q.toThread else [])
                                               + (if s.host.pending.Some? then [s.host.pending.value] else []))
  {
    HostKeepsShape(s, HClose);
  }

  /** `Ipc.Dispatch`: both checks, with the ipc's lock held between them, find what is ready of what was asked. */
  lemma DispatchIsItsSteps(s: Sys, asked: Events)
    requires s.poll.pc == Asked(asked) && s.op.Unlocked?
    ensures var t := DoPoll(DoPoll(s, CheckReadable), CheckWritable);
            var ready := Ready(s.q, s.host, asked);
            t.poll.pc == if ready.None() then Asleep else Calling(ready)
  {
  }

  /** What the read loop's turns do when the reader takes `demand` chunks. */
  function Turns(s: Sys, demand: nat): Sys
    decreases demand
  {
    if demand == 0 || !s.js.pc.Draining? then s else Turns(DoTurn(s, demand > 1), demand - 1)
  }

  /** What one turn does, by what its read of the queue returns. */
  lemma TurnIsARead(s: Sys, more: bool)
    requires Shape(s) && s.live && s.js.reading && s.js.pc.Draining?
    ensures var t := DoTurn(s, more);
            && Shape(t) && t.live && t.q == Read(s.q, Uv).0
            && match Read(s.q, Uv).1 {
                 case Received(message) =>
                   && t.js == (if more then s.js else s.js.(reading := false, pc := Outside))
                   && t.log == s.log.(pushed := s.log.pushed + [message])
                 case EndOfStream =>
                   t.js == s.js.(reading := false, pc := Outside) && t.log == s.log.(workletEof := true)
                 case ReadBlocked => t.js == s.js.(pc := Outside) && t.log == s.log
               }
  {
    TurnKeepsShape(s, more);
  }

  /** What a drain adds to a log and leaves of the reader's state. */
  ghost predicate Outcome(s: Sys, t: Sys, d: Drained) {
    && t.q == d.q
    && t.js.reading == d.reading && t.js.pc.Outside?
    && t.log.pushed == s.log.pushed + d.taken
    && t.log.workletEof == (s.log.workletEof || d.ended)
  }

  /** A turn that received, and then a drain of the rest, is a drain. */
  lemma TurnThenDrain(s: Sys, t: Sys, u: Sys, demand: nat)
    requires demand > 0 && Read(s.q, Uv).1.Received?
    requires var (q, result) := Read(s.q, Uv);
             && t.log.pushed == s.log.pushed + [result.message] && t.log.workletEof == s.log.workletEof
             && Outcome(t, u, DrainAll(q, demand - 1))
    ensures Outcome(s, u, DrainAll(s.q, demand))
  {
    var (q, result) := Read(s.q, Uv);
    var rest := DrainAll(q, demand - 1);
    assert (s.log.pushed + [result.message]) + rest.taken == s.log.pushed + ([result.message] + rest.taken);
  }

  /** `IpcStream.Drain`: its turns, one read of the queue each. */
  lemma {:induction false} DrainIsItsTurns(s: Sys, demand: nat)
    requires Shape(s) && s.live && s.js.pc.Draining? && s.js.reading && demand > 0
    ensures Outcome(s, Turns(s, demand), DrainAll(s.q, demand))
    decreases demand
  {
    var t := DoTurn(s, demand > 1);
    TurnIsARead(s, demand > 1);
    if Read(s.q, Uv).1.Received? {
      if demand > 1 {
        DrainIsItsTurns(t, demand - 1);
      }
      TurnThenDrain(s, t, Turns(t, demand - 1), demand);
    } else {
      assert Turns(t, demand - 1) == t;
    }
  }

  /** `IpcStream.Send`, as the stream's writer calls it. */
  lemma SendIsItsStep(s: Sys, chunk: seq<Byte>)
    requires Shape(s) && JsEnabled(s, JWrite(chunk))
    ensures var t := DoJs(s, JWrite(chunk));
            (t.q, t.js) == (var (q, js, _) := Send(s.q, s.js.(pendingWrite := None), s.heap.next, chunk); (q, js))
  {
  }

  /** `IpcStream.Retry`, and then the read loop is next. */
  lemma RetryIsItsStep(s: Sys)
    requires Shape(s) && JsEnabled(s, JRetry)
    ensures var t := DoRetry(s);
            && Shape(t) && t.live && t.log.pushed == s.log.pushed && t.log.workletEof == s.log.workletEof
            && (t.q, t.js.(pc := Outside)) == Retried(s.q, s.js.(pc := Outside), s.heap.next)
            && t.js.pc.Draining?
  {
    RetryKeepsShape(s);
  }

  /** `IpcStream.OnSignal`, once the wake is taken: the retry, then the turns of a drain. */
  lemma OnSignalIsItsSteps(s: Sys, demand: nat)
    requires Shape(s) && JsEnabled(s, JRetry) && demand > 0
    ensures var (q, js) := Retried(s.q, s.js.(pc := Outside), s.heap.next);
            && Outcome(s, Turns(DoRetry(s), demand), DrainIf(q, js.reading, demand))
            && Turns(DoRetry(s), demand).js.pendingWrite == js.pendingWrite
  {
    RetryIsItsStep(s);
    var t := DoRetry(s);
    if t.js.reading {
      DrainIsItsTurns(t, demand);
    } else {
      assert Turns(t, demand) == Turns(DoTurn(t, demand > 1), demand - 1) == DoTurn(t, demand > 1);
    }
    TurnsKeepParked(t, demand);
  }

  /** A pending wake can be taken where the loop is outside the stream: it is cleared, and then served as above. */
  lemma WakeIsTaken(s: Sys, demand: nat)
    requires Shape(s) && s.live && s.js.pc.Outside? && s.q.uv.Listening() && s.q.uvWake && demand > 0
    ensures JsEnabled(s, JWake)
    ensures var t := DoJs(s, JWake);
            && Shape(t) && JsEnabled(t, JRetry) && t.q == s.q.(uvWake := false) && t.log == s.log
            && t.js.(pc := Outside) == s.js
  {
    JsKeepsShape(s, JWake);
  }

  /** `IpcStream.Read`: the reader waits, and then the turns of a drain. */
  lemma ReadIsItsTurns(s: Sys, demand: nat)
    requires Shape(s) && JsEnabled(s, JRead) && demand > 0
    ensures Outcome(s, Turns(DoJs(s, JRead), demand), DrainAll(s.q, demand))
  {
    JsKeepsShape(s, JRead);
    DrainIsItsTurns(DoJs(s, JRead), demand);
  }

  lemma {:induction false} TurnsKeepParked(s: Sys, demand: nat)
    ensures Turns(s, demand).js.pendingWrite == s.js.pendingWrite
    decreases demand
  {
    if demand > 0 && s.js.pc.Draining? {
      TurnLog(s, demand > 1);
      TurnsKeepParked(DoTurn(s, demand > 1), demand - 1);
    }
  }
}
