/** From every reachable state of the system there is a way to one in which every buffer was freed. */
module Release {
  import opened Options
  import opened Rings
  import opened QueueModel
  import opened HostModel
  import opened StreamModel
  import opened System
  import opened Endings
  import opened Buffers

  /** Whoever has the ipc's lock can give it back. */
  lemma LockCanBeFreed(s: Sys) returns (steps: seq<Step>)
    requires Shape(s)
    ensures Legal(s, steps) && Shape(After(s, steps)) && IpcLockFree(After(s, steps))
    ensures After(s, steps).heap.held == s.heap.held
  {
    if s.poll.pc.Locked? {
      steps := Prefix(s, OfPoll(CheckWritable), []);
      PollKeepsShape(s, CheckWritable);
    } else if s.op.Unlocked? {
      steps := [];
    } else {
      var t, first := s, [];
      if s.op.ReadCheck? {
        t := Do(s, OfHost(Check));
        HostKeepsShape(s, Check);
        first := Prefix(s, OfHost(Check), []);
      }
      var rest := [];
      if t.op.SignalOwed? {
        HostKeepsShape(t, Signal);
        rest := Prefix(t, OfHost(Signal), []);
      }
      steps := Join(s, first, rest);
    }
  }

  /** The worklet can exit and give up its share. */
  lemma WorkletCanEnd(s: Sys) returns (steps: seq<Step>)
    requires Shape(s)
    ensures Legal(s, steps) && Shape(After(s, steps)) && After(s, steps).q.destroyed
    ensures IpcLockFree(s) ==> IpcLockFree(After(s, steps))
    ensures After(s, steps).heap.held == s.heap.held
  {
    if s.q.destroyed {
      steps := [];
    } else {
      var closed := Do(s, OfWorklet(JClose));
      ShareCanGo(s, closed);
      var exited := if closed.live then Do(closed, OfWorklet(JExit)) else closed;
      steps := Prefix(exited, OfWorklet(JDestroy), []);
      if closed.live {
        steps := Prefix(closed, OfWorklet(JExit), steps);
      }
      steps := Prefix(s, OfWorklet(JClose), steps);
    }
  }

  lemma ShareCanGo(s: Sys, closed: Sys)
    requires Shape(s) && !s.q.destroyed && closed == DoJs(s, JClose)
    ensures Shape(closed) && closed.q.uv.Closed? && closed.live == s.live && closed.heap.held == s.heap.held
    ensures closed.op == s.op && closed.poll == s.poll && !closed.q.destroyed
    ensures var exited := if closed.live then DoJs(closed, JExit) else closed;
            && (closed.live ==> JsEnabled(closed, JExit)) && JsEnabled(exited, JDestroy)
            && Shape(exited) && Shape(DoJs(exited, JDestroy)) && DoJs(exited, JDestroy).q.destroyed
            && DoJs(exited, JDestroy).op == s.op && DoJs(exited, JDestroy).poll == s.poll
            && DoJs(exited, JDestroy).heap.held == s.heap.held
  {
    CloseUvKeepsShape(s);
    JsReaches(s, JClose);
    var exited := if closed.live then DoJs(closed, JExit) else closed;
    if closed.live {
      ExitKeepsShape(closed);
    }
    DestroyKeepsShape(exited);
    StaysDestroyed(exited, OfWorklet(JDestroy));
  }

  /** JavaScript can let go of all that it holds. */
  lemma {:induction false} HeldCanBeFreed(s: Sys) returns (steps: seq<Step>)
    requires Shape(s)
    ensures Legal(s, steps) && Shape(After(s, steps)) && After(s, steps).heap.held == [] && After(s, steps).gone == s.gone
    decreases |s.heap.held|
  {
    if s.heap.held == [] {
      steps := [];
    } else {
      var t := Do(s, OfWorklet(JFinalize(0)));
      FinalizeKeepsShape(s, 0);
      assert t.heap.held == [] + s.heap.held[1..];
      var rest := HeldCanBeFreed(t);
      steps := Prefix(s, OfWorklet(JFinalize(0)), rest);
    }
  }

  /** The host can close its end, and with it goes the queue. */
  lemma HostCanClose(s: Sys) returns (steps: seq<Step>)
    requires Shape(s) && IpcLockFree(s) && s.q.destroyed
    ensures Legal(s, steps) && Shape(After(s, steps)) && After(s, steps).gone
  {
    if s.host.port {
      CloseKeepsShape(s);
      steps := Prefix(s, OfHost(HClose), []);
    } else {
      steps := [];
    }
  }

  lemma AllCanLetGo(s: Sys) returns (steps: seq<Step>)
    requires Shape(s)
    ensures Legal(s, steps) && After(s, steps).gone && After(s, steps).heap.held == []
  {
    steps := LockCanBeFreed(s);
    var more := WorkletCanEnd(After(s, steps));
    steps := Join(s, steps, more);
    more := HostCanClose(After(s, steps));
    steps := Join(s, steps, more);
    more := HeldCanBeFreed(After(s, steps));
    steps := Join(s, steps, more);
  }

  /** From every reachable state both sides can let go, whereupon every buffer that was ever allocated was freed once. */
  lemma EveryBufferCanBeFreed(capacity: nat, maxChunk: nat, before: seq<Step>) returns (steps: seq<Step>)
    requires capacity > 0 && Legal(Init(capacity, maxChunk), before)
    ensures Legal(After(Init(capacity, maxChunk), before), steps)
    ensures var t := After(After(Init(capacity, maxChunk), before), steps);
            t.gone && forall id: nat :: Count(t.heap.freed, id) == One(id < t.heap.next)
  {
    var s0 := Init(capacity, maxChunk);
    InitHasShape(capacity, maxChunk);
    RunKeepsShape(s0, before);
    steps := AllCanLetGo(After(s0, before));
    var all := Join(s0, before, steps);
    forall id: nat
      ensures var t := After(s0, all); Count(t.heap.freed, id) == One(id < t.heap.next)
    {
      BuffersFreedExactlyOnce(capacity, maxChunk, all, id);
    }
  }
}
