/**
 The queue between the worklet (uv) end and the host (thread) end, on values.
 Each function below is one section that the queue's lock makes atomic.
 */
module QueueModel {
  import opened Rings

  const CAPACITY: nat := 1024
  const INT_MAX: nat := 0x7fff_ffff

  datatype End = Uv | Thread {
    function Peer(): End {
      if Uv? then Thread else Uv
    }
  }

  /** An end only moves forward through these. */
  datatype EndState = Idle | Open | Ended | Closed {
    function Rank(): nat {
      match this
      case Idle => 0
      case Open => 1
      case Ended => 2
      case Closed => 3
    }

    predicate Listening() {
      Open? || Ended?
    }
  }

  datatype WriteResult = Written(n: nat) | WriteBlocked | Rejected
  datatype ReadResult = Received(message: Message) | EndOfStream | ReadBlocked

  /** No message is empty, so none is mistaken for the end of the stream. */
  ghost predicate NoneEmpty(messages: seq<Message>) {
    forall m :: m in messages ==> m.bytes != []
  }

  datatype Queue = Queue(
    capacity: nat,          // Slots of each ring, one of which stays free
    toUv: seq<Message>,     // Host -> worklet, oldest first
    toThread: seq<Message>, // Worklet -> host, oldest first
    uv: EndState,
    thread: EndState,
    destroyed: bool,
    uvWake: bool,           // A coalesced wake of the worklet's loop is pending
    threadWake: bool        // A coalesced wake of the host's poll thread is pending
  ) {
    function State(e: End): EndState {
      if e.Uv? then uv else thread
    }

    function Inbox(e: End): seq<Message> {
      if e.Uv? then toUv else toThread
    }

    function WithInbox(e: End, messages: seq<Message>): Queue {
      if e.Uv? then this.(toUv := messages) else this.(toThread := messages)
    }

    function WithState(e: End, state: EndState): Queue {
      if e.Uv? then this.(uv := state) else this.(thread := state)
    }

    predicate Woken(e: End) {
      if e.Uv? then uvWake else threadWake
    }

    predicate Full(messages: seq<Message>) {
      |messages| + 1 == capacity
    }

    /** What every section of the queue keeps. */
    ghost predicate Valid() {
      && |toUv| < capacity
      && |toThread| < capacity
      && NoneEmpty(toUv)
      && NoneEmpty(toThread)
    }

    /** Wakes end `e` if it listens. */
    function Signal(e: End): Queue {
      if !State(e).Listening() then this
      else if e.Uv? then this.(uvWake := true)
      else this.(threadWake := true)
    }

    predicate Readable(e: End) {
      Inbox(e) != [] || State(e.Peer()).Rank() >= Ended.Rank()
    }

    predicate Writable(e: End) {
      !Full(Inbox(e.Peer())) || State(e).Rank() >= Ended.Rank() || State(e.Peer()).Closed?
    }

    /** Neither side holds on to the queue any more. */
    predicate Unowned() {
      destroyed && (thread.Idle? || thread.Closed?)
    }
  }

  function Create(capacity: nat): Queue {
    Queue(capacity, [], [], Idle, Idle, false, false, false)
  }

  function OpenUv(q: Queue): Queue {
    q.(uv := Open, uvWake := q.uvWake || q.toUv != [])
  }

  /** The host end opens once; `false` is the NULL of a second open. */
  function OpenThread(q: Queue): (Queue, bool) {
    if !q.thread.Idle? then (q, false)
    else
      var q' := q.(thread := Open);
      (if q.toThread != [] then q'.Signal(Thread) else q', true)
  }

  /** The span of a write that one message carries. */
  function Clamp(data: seq<Byte>): (r: seq<Byte>)
    ensures r <= data && |r| <= INT_MAX
    ensures |data| <= INT_MAX ==> r == data
    ensures data != [] ==> r != []
  {
    if |data| > INT_MAX then data[..INT_MAX] else data
  }

  /** `id` is the buffer allocated for the copy. */
  function Write(q: Queue, e: End, id: nat, data: seq<Byte>): (Queue, WriteResult) {
    if data == [] then (q, Written(0))
    else
      var message := Message(id, Clamp(data));
      var ring := q.Inbox(e.Peer());
      if q.State(e).Rank() >= Ended.Rank() || q.State(e.Peer()).Closed? then (q, Rejected)
      else if q.Full(ring) then (q, WriteBlocked)
      else
        var pushed := q.WithInbox(e.Peer(), ring + [message]);
        (if ring == [] then pushed.Signal(e.Peer()) else pushed, Written(|message.bytes|))
  }

  function Read(q: Queue, e: End): (Queue, ReadResult) {
    var ring := q.Inbox(e);
    if ring != [] then
      var shifted := q.WithInbox(e, ring[1..]);
      (if q.Full(ring) then shifted.Signal(e.Peer()) else shifted, Received(ring[0]))
    else if q.State(e.Peer()).Rank() >= Ended.Rank() then (q, EndOfStream)
    else (q, ReadBlocked)
  }

  /** Ends or closes end `e`. Always wakes the peer; the flag says to free the queue. */
  function Advance(q: Queue, e: End, state: EndState): (Queue, bool) {
    var moved := if q.State(e).Rank() < state.Rank() then q.WithState(e, state) else q;
    var signalled := moved.Signal(e.Peer());
    (signalled, signalled.Unowned())
  }

  function Destroy(q: Queue): (Queue, bool) {
    var q' := q.(destroyed := true);
    (q', q'.Unowned())
  }

  // Readiness

  lemma ReadableIsExact(q: Queue, e: End)
    ensures q.Readable(e) <==> !Read(q, e).1.ReadBlocked?
  {
    if q.Inbox(e) != [] {
      assert Read(q, e).1.Received?;
    }
  }

  lemma WritableIsExact(q: Queue, e: End, id: nat, data: seq<Byte>)
    requires data != []
    ensures q.Writable(e) <==> !Write(q, e, id, data).1.WriteBlocked?
  {
    if Write(q, e, id, data).1.WriteBlocked? {
      assert q.Full(q.Inbox(e.Peer()));
    }
  }

  // Wakes

  /** A section of the peer that makes end `e` readable or writable leaves a wake of `e` pending. */
  ghost predicate Noticed(q: Queue, q': Queue, e: End) {
    && q'.State(e) == q.State(e)
    && (q.Woken(e) ==> q'.Woken(e))
    && (q.State(e).Listening() && q'.Readable(e) ==> q.Readable(e) || q'.Woken(e))
    && (q.State(e).Listening() && q'.Writable(e) ==> q.Writable(e) || q'.Woken(e))
  }

  lemma WriteIsNoticed(q: Queue, e: End, id: nat, data: seq<Byte>)
    ensures Noticed(q, Write(q, e.Peer(), id, data).0, e)
  {
    assert e.Peer().Peer() == e;
  }

  lemma ReadIsNoticed(q: Queue, e: End)
    requires q.Valid()
    ensures Noticed(q, Read(q, e.Peer()).0, e)
  {
    assert e.Peer().Peer() == e;
  }

  lemma AdvanceIsNoticed(q: Queue, e: End, state: EndState)
    ensures Noticed(q, Advance(q, e.Peer(), state).0, e)
    ensures q.State(e).Listening() ==> Advance(q, e.Peer(), state).0.Woken(e)
  {
    assert e.Peer().Peer() == e;
  }

  // Interleavings

  /** One atomic section, from either end. */
  datatype Op =
    | OpOpenUv
    | OpOpenThread
    | OpWrite(e: End, id: nat, data: seq<Byte>)
    | OpRead(e: End)
    | OpAdvance(e: End, state: EndState)
    | OpDestroy
    | OpWake(e: End) // The end's loop takes its pending wake
  {
    /** The end on whose threads the section runs. */
    predicate By(end: End) {
      match this
      case OpOpenUv => end.Uv?
      case OpOpenThread => end.Thread?
      case OpWrite(e, _, _) => e == end
      case OpRead(e) => e == end
      case OpAdvance(e, _) => e == end
      case OpDestroy => end.Uv?
      case OpWake(e) => e == end
    }

    /** The worklet end opens once; a wake is taken only when pending. */
    predicate Legal(q: Queue) {
      match this
      case OpOpenUv => q.uv.Idle?
      case OpWake(e) => q.Woken(e)
      case _ => true
    }
  }

  function Apply(q: Queue, op: Op): Queue {
    match op
    case OpOpenUv => OpenUv(q)
    case OpOpenThread => OpenThread(q).0
    case OpWrite(e, id, data) => Write(q, e, id, data).0
    case OpRead(e) => Read(q, e).0
    case OpAdvance(e, state) => Advance(q, e, state).0
    case OpDestroy => Destroy(q).0
    case OpWake(e) => if e.Uv? then q.(uvWake := false) else q.(threadWake := false)
  }

  predicate LegalRun(q: Queue, ops: seq<Op>)
    decreases |ops|
  {
    ops == [] || (ops[0].Legal(q) && LegalRun(Apply(q, ops[0]), ops[1..]))
  }

  function ApplyAll(q: Queue, ops: seq<Op>): Queue
    decreases |ops|
  {
    if ops == [] then q else ApplyAll(Apply(q, ops[0]), ops[1..])
  }

  lemma WriteKeepsValid(q: Queue, e: End, id: nat, data: seq<Byte>)
    requires q.Valid()
    ensures Write(q, e, id, data).0.Valid()
  {
    var ring, message := q.Inbox(e.Peer()), Message(id, Clamp(data));
    if Write(q, e, id, data).1.Written? && data != [] {
      assert NoneEmpty(ring + [message]);
    }
  }

  lemma ReadKeepsValid(q: Queue, e: End)
    requires q.Valid()
    ensures Read(q, e).0.Valid()
  {
    var ring := q.Inbox(e);
    if ring != [] {
      assert NoneEmpty(ring[1..]);
    }
  }

  lemma ApplyKeepsValid(q: Queue, op: Op)
    requires q.Valid()
    ensures Apply(q, op).Valid()
  {
    match op
    case OpWrite(e, id, data) => WriteKeepsValid(q, e, id, data);
    case OpRead(e) => ReadKeepsValid(q, e);
    case _ =>
  }

  lemma PeerWriteKeepsReadiness(q: Queue, e: End, id: nat, data: seq<Byte>)
    ensures q.Readable(e) ==> Write(q, e.Peer(), id, data).0.Readable(e)
    ensures q.Writable(e) ==> Write(q, e.Peer(), id, data).0.Writable(e)
  {
    assert e.Peer().Peer() == e;
  }

  lemma PeerReadKeepsReadiness(q: Queue, e: End)
    requires q.Valid()
    ensures q.Readable(e) ==> Read(q, e.Peer()).0.Readable(e)
    ensures q.Writable(e) ==> Read(q, e.Peer()).0.Writable(e)
  {
    assert e.Peer().Peer() == e;
  }

  lemma PeerAdvanceKeepsReadiness(q: Queue, e: End, state: EndState)
    ensures q.Readable(e) ==> Advance(q, e.Peer(), state).0.Readable(e)
    ensures q.Writable(e) ==> Advance(q, e.Peer(), state).0.Writable(e)
  {
    assert e.Peer().Peer() == e;
  }

  /** Once an end is ready, no single section of its peer makes it unready. */
  lemma PeerKeepsReadiness(q: Queue, e: End, op: Op)
    requires q.Valid() && op.By(e.Peer()) && op.Legal(q)
    ensures q.Readable(e) ==> Apply(q, op).Readable(e)
    ensures q.Writable(e) ==> Apply(q, op).Writable(e)
  {
    match op
    case OpWrite(_, id, data) => PeerWriteKeepsReadiness(q, e, id, data);
    case OpRead(_) => PeerReadKeepsReadiness(q, e);
    case OpAdvance(_, state) => PeerAdvanceKeepsReadiness(q, e, state);
    case OpOpenUv =>
    case OpOpenThread =>
    case OpDestroy =>
    case OpWake(_) =>
  }

  /** What a poller was told stays true for as long as only the peer acts. */
  lemma {:induction false} ReadinessIsStable(q: Queue, e: End, ops: seq<Op>)
    requires q.Valid() && LegalRun(q, ops)
    requires forall i :: 0 <= i < |ops| ==> ops[i].By(e.Peer())
    ensures q.Readable(e) ==> !Read(ApplyAll(q, ops), e).1.ReadBlocked?
    ensures forall id, data :: q.Writable(e) && data != [] ==>
              !Write(ApplyAll(q, ops), e, id, data).1.WriteBlocked?
    decreases |ops|
  {
    if ops == [] {
      ReadableIsExact(q, e);
      forall id, data | q.Writable(e) && data != []
        ensures !Write(q, e, id, data).1.WriteBlocked?
      {
        WritableIsExact(q, e, id, data);
      }
    } else {
      PeerKeepsReadiness(q, e, ops[0]);
      ApplyKeepsValid(q, ops[0]);
      ReadinessIsStable(Apply(q, ops[0]), e, ops[1..]);
    }
  }

  /** The message that one section accepts from end `e`. */
  function SentBy(q: Queue, op: Op, e: End): seq<Message> {
    if op.OpWrite? && op.e == e && op.data != [] && Write(q, e, op.id, op.data).1.Written?
    then [Message(op.id, Clamp(op.data))] else []
  }

  /** The message that one section hands to end `e`. */
  function TakenBy(q: Queue, op: Op, e: End): seq<Message> {
    if op.OpRead? && op.e == e && Read(q, e).1.Received? then [Read(q, e).1.message] else []
  }

  function Sent(q: Queue, ops: seq<Op>, e: End): seq<Message>
    decreases |ops|
  {
    if ops == [] then [] else SentBy(q, ops[0], e) + Sent(Apply(q, ops[0]), ops[1..], e)
  }

  function Taken(q: Queue, ops: seq<Op>, e: End): seq<Message>
    decreases |ops|
  {
    if ops == [] then [] else TakenBy(q, ops[0], e) + Taken(Apply(q, ops[0]), ops[1..], e)
  }

  lemma WriteIsFifo(q: Queue, w: End, id: nat, data: seq<Byte>, e: End)
    ensures q.Inbox(e) + SentBy(q, OpWrite(w, id, data), e.Peer()) == Write(q, w, id, data).0.Inbox(e)
  {
  }

  lemma ReadIsFifo(q: Queue, r: End, e: End)
    ensures q.Inbox(e) == TakenBy(q, OpRead(r), e) + Read(q, r).0.Inbox(e)
  {
    var ring := q.Inbox(e);
    if r == e && ring != [] {
      assert ring == [ring[0]] + ring[1..];
    }
  }

  lemma FifoStep(q: Queue, op: Op, e: End)
    ensures q.Inbox(e) + SentBy(q, op, e.Peer()) == TakenBy(q, op, e) + Apply(q, op).Inbox(e)
  {
    match op
    case OpWrite(w, id, data) => WriteIsFifo(q, w, id, data, e);
    case OpRead(r) => ReadIsFifo(q, r, e);
    case _ =>
  }

  /** In every interleaving each message arrives once and in order, or is still in the ring. */
  lemma {:induction false} FifoUnderInterleaving(q: Queue, ops: seq<Op>, e: End)
    ensures q.Inbox(e) + Sent(q, ops, e.Peer()) == Taken(q, ops, e) + ApplyAll(q, ops).Inbox(e)
    decreases |ops|
  {
    if ops != [] {
      var q', rest := Apply(q, ops[0]), ops[1..];
      FifoStep(q, ops[0], e);
      FifoUnderInterleaving(q', rest, e);
      Regroup(q.Inbox(e), SentBy(q, ops[0], e.Peer()), Sent(q', rest, e.Peer()),
              TakenBy(q, ops[0], e), q'.Inbox(e), Taken(q', rest, e), ApplyAll(q', rest).Inbox(e));
    }
  }

  lemma Regroup<T>(a: seq<T>, b: seq<T>, c: seq<T>, d: seq<T>, e: seq<T>, f: seq<T>, g: seq<T>)
    requires a + b == d + e && e + c == f + g
    ensures a + (b + c) == (d + f) + g
  {
    calc {
      a + (b + c);
      (a + b) + c;
      d + (e + c);
      (d + f) + g;
    }
  }

  lemma AdvanceMovesForward(q: Queue, a: End, state: EndState, e: End)
    ensures q.State(e).Rank() <= Advance(q, a, state).0.State(e).Rank()
    ensures Advance(q, a, state).0.Inbox(e) == q.Inbox(e)
  {
  }

  lemma WriteAfterEnd(q: Queue, w: End, id: nat, data: seq<Byte>, e: End)
    ensures Write(q, w, id, data).0.State(e) == q.State(e)
    ensures q.State(w).Rank() >= Ended.Rank() ==> Write(q, w, id, data).0 == q
  {
  }

  lemma StepMovesForward(q: Queue, op: Op, e: End)
    requires op.Legal(q)
    ensures q.State(e).Rank() <= Apply(q, op).State(e).Rank()
  {
    match op
    case OpWrite(w, id, data) => WriteAfterEnd(q, w, id, data, e);
    case OpRead(r) =>
    case OpAdvance(a, state) => AdvanceMovesForward(q, a, state, e);
    case _ =>
  }

  /** A drained inbox whose writer has ended stays empty. */
  lemma StepKeepsDrained(q: Queue, op: Op, e: End)
    requires q.Inbox(e) == [] && q.State(e.Peer()).Rank() >= Ended.Rank()
    ensures Apply(q, op).Inbox(e) == []
  {
    match op
    case OpWrite(w, id, data) =>
      if w == e.Peer() {
        WriteAfterEnd(q, w, id, data, e);
      } else {
        WriteIsFifo(q, w, id, data, e);
      }
    case OpRead(r) => ReadIsFifo(q, r, e);
    case OpAdvance(a, state) => AdvanceMovesForward(q, a, state, e);
    case _ =>
  }

  /** Ends move forward only, so an end that may no longer write stays that way. */
  lemma {:induction false} EndsMoveForward(q: Queue, ops: seq<Op>, e: End)
    requires LegalRun(q, ops)
    ensures q.State(e).Rank() <= ApplyAll(q, ops).State(e).Rank()
    decreases |ops|
  {
    if ops != [] {
      StepMovesForward(q, ops[0], e);
      EndsMoveForward(Apply(q, ops[0]), ops[1..], e);
    }
  }

  /** Once an end has read end-of-stream, every later read in every interleaving reads it too. */
  lemma {:induction false} EndOfStreamIsFinal(q: Queue, ops: seq<Op>, e: End)
    requires LegalRun(q, ops)
    requires Read(q, e).1.EndOfStream?
    ensures Read(ApplyAll(q, ops), e).1.EndOfStream?
    decreases |ops|
  {
    if ops != [] {
      StepKeepsDrained(q, ops[0], e);
      StepMovesForward(q, ops[0], e.Peer());
      EndOfStreamIsFinal(Apply(q, ops[0]), ops[1..], e);
    }
  }
}
