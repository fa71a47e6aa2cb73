/** Every message buffer is in exactly one place, and is freed at most once. */
module Buffers {
  import opened Options
  import opened Rings
  import opened QueueModel
  import opened HostModel
  import opened StreamModel
  import opened System

  function One(yes: bool): nat {
    if yes then 1 else 0
  }

  /** How often buffer `id` is among the messages. */
  function Count(messages: seq<Message>, id: nat): nat {
    if messages == [] then 0 else One(messages[0].id == id) + Count(messages[1..], id)
  }

  lemma {:induction false} CountAppend(a: seq<Message>, b: seq<Message>, id: nat)
    ensures Count(a + b, id) == Count(a, id) + Count(b, id)
  {
    if a == [] {
      assert a + b == b;
    } else {
      assert (a + b)[1..] == a[1..] + b;
      CountAppend(a[1..], b, id);
    }
  }

  lemma CountPush(a: seq<Message>, m: Message, id: nat)
    ensures Count(a + [m], id) == Count(a, id) + One(m.id == id)
  {
    CountAppend(a, [m], id);
  }

  lemma CountRemove(a: seq<Message>, i: nat, id: nat)
    requires i < |a|
    ensures Count(a, id) == Count(a[..i] + a[i + 1..], id) + One(a[i].id == id)
  {
    assert a == (a[..i] + [a[i]]) + a[i + 1..];
    CountAppend(a[..i] + [a[i]], a[i + 1..], id);
    CountPush(a[..i], a[i], id);
    CountAppend(a[..i], a[i + 1..], id);
  }

  function Pending(h: Host): seq<Message> {
    if h.pending.Some? then [h.pending.value] else []
  }

  /** In how many places buffer `id` is: the rings, the host's pending message, JavaScript, or freed. */
  function Places(s: Sys, id: nat): nat {
    Count(s.q.toUv, id) + Count(s.q.toThread, id) + Count(Pending(s.host), id)
    + Count(s.heap.held, id) + Count(s.heap.freed, id)
  }

  ghost predicate BufferConserved(s: Sys, id: nat) {
    Shape(s) && Places(s, id) == One(id < s.heap.next)
  }

  /** A read moves the message it copies from to the pending slot, or lets go of it. */
  lemma FetchMovesBuffer(s: Sys, n: nat)
    requires Shape(s) && n > 0
    ensures var (q, host, _) := Fetch(s.q, s.host, n);
            Pending(s.host) + s.q.toThread == Released(s, n) + Pending(host) + q.toThread
  {
    if s.host.pending.Some? {
      assert Fetch(s.q, s.host, n).0 == s.q;
    } else if s.host.port && s.q.toThread != [] {
      assert Fetch(s.q, s.host, n).0.toThread == s.q.toThread[1..];
    } else {
      assert Fetch(s.q, s.host, n).0 == s.q;
    }
  }

  lemma HostReadKeepsBuffer(s: Sys, n: nat, id: nat)
    requires BufferConserved(s, id) && HostEnabled(s, HRead(n))
    ensures BufferConserved(DoHostRead(s, n), id)
  {
    HostReadKeepsShape(s, n);
    FetchFrame(s.q, s.host, n);
    FetchMovesBuffer(s, n);
    HostReadLog(s, n);
    var (q, host, _) := Fetch(s.q, s.host, n);
    CountAppend(Pending(s.host), s.q.toThread, id);
    CountAppend(Released(s, n) + Pending(host), q.toThread, id);
    CountAppend(Released(s, n), Pending(host), id);
    CountAppend(s.heap.freed, Released(s, n), id);
  }

  lemma HostWriteKeepsBuffer(s: Sys, data: seq<Byte>, id: nat)
    requires BufferConserved(s, id)
    ensures BufferConserved(DoHostWrite(s, data), id)
  {
    HostWriteKeepsShape(s, data);
    if s.host.port && data != [] {
      HostWriteLog(s, data);
      var result := Write(s.q, Thread, s.heap.next, data).1;
      if result.Written? {
        CountPush(s.q.toUv, Message(s.heap.next, data[..result.n]), id);
      } else {
        CountPush(s.heap.freed, Message(s.heap.next, data), id);
      }
    }
  }

  lemma FreeKeepsBuffer(s: Sys, unowned: bool, id: nat)
    ensures Places(FreeIf(s, unowned), id) == Places(s, id)
  {
    CountAppend(s.heap.freed, s.q.toUv + s.q.toThread, id);
    CountAppend(s.q.toUv, s.q.toThread, id);
  }

  /** `t` has let go of the host's pending message, and of both rings too if `unowned`. */
  predicate LetGo(s: Sys, t: Sys, unowned: bool) {
    && t.host.pending.None? && t.heap.held == s.heap.held && t.heap.next == s.heap.next
    && t.q.toUv == (if unowned then [] else s.q.toUv)
    && t.q.toThread == (if unowned then [] else s.q.toThread)
    && t.heap.freed == s.heap.freed + (if unowned then s.q.toUv + s.q.toThread else []) + Pending(s.host)
  }

  lemma CloseLetsGo(s: Sys)
    requires s.host.port
    ensures LetGo(s, DoHostClose(s), Advance(s.q, Thread, Closed).1)
  {
  }

  lemma LetGoKeepsPlaces(s: Sys, t: Sys, unowned: bool, id: nat)
    requires LetGo(s, t, unowned)
    ensures Places(t, id) == Places(s, id)
  {
    var rings := if unowned then s.q.toUv + s.q.toThread else [];
    CountAppend(s.heap.freed + rings, Pending(s.host), id);
    CountAppend(s.heap.freed, rings, id);
    CountAppend(s.q.toUv, s.q.toThread, id);
  }

  lemma CloseKeepsBuffer(s: Sys, id: nat)
    requires BufferConserved(s, id) && HostEnabled(s, HClose)
    ensures BufferConserved(DoHostClose(s), id)
  {
    HostKeepsShape(s, HClose);
    if s.host.port {
      CloseLetsGo(s);
      LetGoKeepsPlaces(s, DoHostClose(s), Advance(s.q, Thread, Closed).1, id);
    }
  }

  lemma HostKeepsBuffer(s: Sys, step: HostStep, id: nat)
    requires BufferConserved(s, id) && HostEnabled(s, step)
    ensures BufferConserved(DoHost(s, step), id)
  {
    HostKeepsShape(s, step);
    match step
    case HRead(n) => HostReadKeepsBuffer(s, n, id);
    case HWrite(data) => HostWriteKeepsBuffer(s, data, id);
    case HClose => CloseKeepsBuffer(s, id);
    case _ =>
  }

  lemma SendKeepsBuffer(s: Sys, chunk: seq<Byte>, id: nat)
    requires BufferConserved(s, id) && s.live && !s.finalled
    ensures BufferConserved(DoSend(s, chunk), id)
  {
    SendKeepsShape(s, chunk);
    if chunk != [] {
      SendLog(s, chunk);
      var result := Send(s.q, s.js.(pendingWrite := None), s.heap.next, chunk).2;
      if result.Written? {
        CountPush(s.q.toThread, Message(s.heap.next, chunk[..result.n]), id);
      } else {
        CountPush(s.heap.freed, Message(s.heap.next, chunk), id);
      }
    }
  }

  lemma TurnKeepsBuffer(s: Sys, more: bool, id: nat)
    requires BufferConserved(s, id) && s.live
    ensures BufferConserved(DoTurn(s, more), id)
  {
    TurnKeepsShape(s, more);
    TurnLog(s, more);
    if s.js.reading && s.q.toUv != [] {
      CountPush(s.heap.held, s.q.toUv[0], id);
    }
  }

  lemma FinalizeKeepsBuffer(s: Sys, i: nat, id: nat)
    requires BufferConserved(s, id) && i < |s.heap.held|
    ensures BufferConserved(DoFinalize(s, i), id)
  {
    FinalizeKeepsShape(s, i);
    CountRemove(s.heap.held, i, id);
    CountPush(s.heap.freed, s.heap.held[i], id);
  }

  lemma DestroyKeepsBuffer(s: Sys, id: nat)
    requires BufferConserved(s, id) && JsEnabled(s, JDestroy)
    ensures BufferConserved(DoJs(s, JDestroy), id)
  {
    DestroyKeepsShape(s);
    FreeKeepsBuffer(s.(q := Destroy(s.q).0), Destroy(s.q).1, id);
  }

  lemma RetryKeepsBuffer(s: Sys, id: nat)
    requires BufferConserved(s, id) && JsEnabled(s, JRetry)
    ensures BufferConserved(DoRetry(s), id)
  {
    RetryKeepsShape(s);
    if s.js.pendingWrite.Some? {
      SendKeepsBuffer(s, s.js.pendingWrite.value, id);
    }
  }

  lemma JsKeepsBuffer(s: Sys, step: JsStep, id: nat)
    requires BufferConserved(s, id) && JsEnabled(s, step)
    ensures BufferConserved(DoJs(s, step), id)
  {
    if Marks(step) {
      JsKeepsShape(s, step);
      MarksMoveNothing(s, step);
    } else {
      match step
      case JWrite(chunk) => SendKeepsBuffer(s.(log := s.log.(handed := s.log.handed + chunk)), chunk, id);
      case JTurn(more) => TurnKeepsBuffer(s, more, id);
      case JRetry => RetryKeepsBuffer(s, id);
      case JFinalize(i) => FinalizeKeepsBuffer(s, i, id);
      case JDestroy => DestroyKeepsBuffer(s, id);
    }
  }

  lemma StepKeepsBuffer(s: Sys, step: Step, id: nat)
    requires BufferConserved(s, id) && Enabled(s, step)
    ensures BufferConserved(Do(s, step), id)
  {
    match step
    case OfHost(h) => HostKeepsBuffer(s, h, id);
    case OfPoll(p) =>
      PollKeepsShape(s, p);
      PollFrame(s, p);
    case OfWorklet(j) => JsKeepsBuffer(s, j, id);
  }

  lemma {:induction false} RunKeepsBuffer(s: Sys, steps: seq<Step>, id: nat)
    requires BufferConserved(s, id) && Legal(s, steps)
    ensures BufferConserved(After(s, steps), id)
    decreases |steps|
  {
    if steps != [] {
      StepKeepsBuffer(s, steps[0], id);
      RunKeepsBuffer(Do(s, steps[0]), steps[1..], id);
    }
  }

  /**
   In every interleaving each allocated buffer is in exactly one place, so none is
   freed twice or used after; and none is left once the queue is gone and
   JavaScript has let go of what it read.
   */
  lemma BuffersFreedExactlyOnce(capacity: nat, maxChunk: nat, steps: seq<Step>, id: nat)
    requires capacity > 0 && Legal(Init(capacity, maxChunk), steps)
    ensures var s := After(Init(capacity, maxChunk), steps);
            && Places(s, id) == One(id < s.heap.next)
            && (s.gone && s.heap.held == [] ==> Count(s.heap.freed, id) == One(id < s.heap.next))
  {
    InitHasShape(capacity, maxChunk);
    RunKeepsBuffer(Init(capacity, maxChunk), steps, id);
  }
}
