/** The worklet end, on values: the consumer and producer state of the duplex stream. */
module StreamModel {
  import opened Options
  import opened Rings
  import opened QueueModel

  /** Where the worklet's loop is in the stream's code. */
  datatype JsPc =
    | Outside   // Not in the stream's code
    | WakeTaken // The pending wake is cleared and the handler is about to retry
    | Draining  // In the read loop

  /** `pendingWrite` is the chunk parked until the next wake. */
  datatype Js = Js(reading: bool, pendingWrite: Option<seq<Byte>>, pc: JsPc)

  /** Sends a chunk; whatever the queue does not take is parked. */
  function Send(q: Queue, js: Js, id: nat, chunk: seq<Byte>): (Queue, Js, WriteResult) {
    match Write(q, Uv, id, chunk)
    case (q', Rejected) => (q', js.(pendingWrite := None), Rejected)
    case (q', WriteBlocked) => (q', js.(pendingWrite := Some(chunk)), WriteBlocked)
    case (q', Written(n)) =>
      (q', js.(pendingWrite := if n < |chunk| then Some(chunk[n..]) else None), Written(n))
  }

  /** One turn of the read loop; `more` is what the stream's `push` returns. */
  function DrainTurn(q: Queue, js: Js, more: bool): (Queue, Js, ReadResult) {
    if !js.reading then (q, js.(pc := Outside), ReadBlocked)
    else
      match Read(q, Uv)
      case (q', ReadBlocked) => (q', js.(pc := Outside), ReadBlocked)
      case (q', EndOfStream) => (q', js.(reading := false, pc := Outside), EndOfStream)
      case (q', Received(message)) =>
        (q', if more then js else js.(reading := false, pc := Outside), Received(message))
  }

  /** A stream that is parked has nothing to do right now. */
  ghost predicate NothingToDo(q: Queue, js: Js) {
    && (js.reading ==> !q.Readable(Uv))
    && (js.pendingWrite.Some? ==> !q.Writable(Uv))
  }

  /**
   A chunk is left parked on a writable queue, where no wake will come for it,
   exactly when it is longer than one message may be and the ring has room for
   a second one.
   */
  lemma SendStrandsExactly(q: Queue, js: Js, id: nat, chunk: seq<Byte>)
    requires q.Valid() && q.Writable(Uv)
    ensures var (q', js', _) := Send(q, js, id, chunk);
            js'.pendingWrite.Some? && q'.Writable(Uv) <==>
            |chunk| > INT_MAX && |q.toThread| + 2 < q.capacity && q.uv.Rank() < Ended.Rank() && !q.thread.Closed?
  {
    if chunk != [] {
      WritableIsExact(q, Uv, id, chunk);
    }
  }

  /** Sends what was parked, if anything. */
  function Retried(q: Queue, js: Js, id: nat): (Queue, Js) {
    if js.pendingWrite.None? then (q, js)
    else
      var (q', js', _) := Send(q, js.(pendingWrite := None), id, js.pendingWrite.value);
      (q', js')
  }

  /** What a read loop leaves behind: the queue, the reader's flags, and what it took. */
  datatype Drained = Drained(q: Queue, reading: bool, taken: seq<Message>, ended: bool)

  /** The whole read loop when nothing interrupts it and the reader has room for `demand` chunks. */
  function DrainAll(q: Queue, demand: nat): Drained
    decreases demand
  {
    if demand == 0 then Drained(q, false, [], false)
    else
      match Read(q, Uv)
      case (_, ReadBlocked) => Drained(q, true, [], false)
      case (_, EndOfStream) => Drained(q, false, [], true)
      case (q', Received(message)) =>
        var rest := DrainAll(q', demand - 1);
        rest.(taken := [message] + rest.taken)
  }

  /** A drain does nothing unless the stream is reading. */
  function DrainIf(q: Queue, reading: bool, demand: nat): Drained {
    if reading then DrainAll(q, demand) else Drained(q, false, [], false)
  }

  /** A loop that has taken `taken` already and does `rest` from here on. */
  function Prepend(taken: seq<Message>, rest: Drained): Drained {
    rest.(taken := taken + rest.taken)
  }

  lemma PrependReceived(taken: seq<Message>, q: Queue, left: nat)
    requires left > 0 && Read(q, Uv).1.Received?
    ensures var (q', result) := Read(q, Uv);
            Prepend(taken, DrainAll(q, left)) == Prepend(taken + [result.message], DrainAll(q', left - 1))
  {
  }

  lemma PrependStopped(taken: seq<Message>, q: Queue, left: nat)
    requires left > 0 && !Read(q, Uv).1.Received?
    ensures var (q', result) := Read(q, Uv);
            && q' == q
            && Prepend(taken, DrainAll(q, left)) == Drained(q, result.ReadBlocked?, taken, result.EndOfStream?)
  {
    assert taken + [] == taken;
  }

  /** The loop takes messages from the front, and stops only at the demand, the end, or an empty ring. */
  lemma {:induction false} DrainTakesFront(q: Queue, demand: nat)
    requires q.Valid()
    ensures var d := DrainAll(q, demand);
            && |d.taken| == (if demand < |q.toUv| then demand else |q.toUv|)
            && q.toUv == d.taken + d.q.toUv
            && d.q == q.(toUv := d.q.toUv, threadWake := d.q.threadWake)
            && d.reading == (|q.toUv| < demand && q.thread.Rank() < Ended.Rank())
            && d.ended == (|q.toUv| < demand && q.thread.Rank() >= Ended.Rank())
            && (d.reading ==> !d.q.Readable(Uv))
    decreases demand
  {
    if demand > 0 && q.toUv != [] {
      var q' := Read(q, Uv).0;
      ReadTakesFront(q);
      DrainTakesFront(q', demand - 1);
      assert q.toUv == [q.toUv[0]] + q.toUv[1..];
    }
  }

  lemma ReadTakesFront(q: Queue)
    requires q.Valid() && q.toUv != []
    ensures var (q', result) := Read(q, Uv);
            && q'.Valid() && result == Received(q.toUv[0])
            && q' == q.(toUv := q.toUv[1..], threadWake := q'.threadWake)
  {
    ReadKeepsValid(q, Uv);
  }

  /** After a retry a parked chunk that fits one message has no room, and a drain takes none of it back. */
  lemma RetryLeavesNothing(q: Queue, js: Js, id: nat, demand: nat)
    requires q.Valid() && demand > 0
    requires js.pendingWrite.Some? && 0 < |js.pendingWrite.value| <= INT_MAX
    ensures var (q', js') := Retried(q, js, id);
            var d := DrainIf(q', js'.reading, demand);
            q'.Valid() && NothingToDo(d.q, js'.(reading := d.reading))
  {
    var (q', js') := Retried(q, js, id);
    var chunk := js.pendingWrite.value;
    WriteKeepsValid(q, Uv, id, chunk);
    WritableIsExact(q, Uv, id, chunk);
    if q.Writable(Uv) {
      SendStrandsExactly(q, js.(pendingWrite := None), id, chunk);
    }
    DrainTakesFront(q', demand);
  }

  /** Draining a full ring wakes the host, whose blocked write then has room. */
  lemma DrainWakesBlockedHost(q: Queue, demand: nat)
    requires q.Valid() && q.Full(q.toUv) && q.toUv != [] && q.thread.Listening() && demand > 0
    ensures DrainAll(q, demand).q.threadWake && DrainAll(q, demand).q.Writable(Thread)
  {
    DrainTakesFront(q, demand);
    ReadKeepsValid(q, Uv);
    WakeSurvives(Read(q, Uv).0, demand - 1);
  }

  lemma {:induction false} WakeSurvives(q: Queue, demand: nat)
    requires q.threadWake
    ensures DrainAll(q, demand).q.threadWake
    decreases demand
  {
    if demand > 0 && q.toUv != [] {
      WakeSurvives(Read(q, Uv).0, demand - 1);
    }
  }
}

/** The worklet end as the source keeps it: an object whose methods the stream and the queue call. */
module Streams {
  import opened Options
  import opened Rings
  import opened QueueModel
  import opened StreamModel
  import opened Queues

  class IpcStream {
    const native: SharedQueue
    var reading: bool
    var pendingWrite: Option<seq<Byte>>
    var pushed: seq<Message> // Given to the stream's reader, as external buffers
    var ended: bool          // The stream's reader was given its end

    constructor (native: SharedQueue)
      ensures this.native == native && !reading && pendingWrite.None? && pushed == [] && !ended
    {
      this.native := native;
      reading, pendingWrite := false, None;
      pushed, ended := [], false;
    }

    ghost function Value(): Js
      reads this
    {
      Js(reading, pendingWrite, Outside)
    }

    /**
     Reads until the queue blocks or ends, or the reader has had enough: `push`
     returns false on the `demand`-th chunk.
     */
    method Drain(demand: nat)
      requires native.Valid() && demand > 0
      modifies this`reading, this`pushed, this`ended
      modifies native`uvWake, native`threadWake, native`value, native.toUv`tail
      ensures native.Valid() && pendingWrite == old(pendingWrite)
      ensures var d := DrainIf(old(native.value), old(reading), demand);
              && native.value == d.q && reading == d.reading
              && pushed == old(pushed) + d.taken
              && ended == (old(ended) || d.ended)
      ensures reading ==> !native.Readable(Uv)
    {
      if reading {
        DrainTakesFront(native.value, demand);
        ReadLoop(demand);
      }
    }

    method ReadLoop(demand: nat)
      requires native.Valid() && reading && demand > 0
      modifies this`reading, this`pushed, this`ended
      modifies native`uvWake, native`threadWake, native`value, native.toUv`tail
      ensures native.Valid()
      ensures var d := DrainAll(old(native.value), demand);
              && native.value == d.q && reading == d.reading
              && pushed == old(pushed) + d.taken
              && ended == (old(ended) || d.ended)
    {
      ghost var d := DrainAll(native.value, demand);
      ghost var taken := [];
      var left := demand;
      while left > 0
        invariant native.Valid() && reading == (left > 0) && ended == old(ended)
        invariant pushed == old(pushed) + taken
        invariant d == Prepend(taken, DrainAll(native.value, left))
      {
        ghost var before := native.value;
        var chunk := Turn(left > 1);
        if !chunk.Received? {
          PrependStopped(taken, before, left);
          return;
        }
        PrependReceived(taken, before, left);
        taken := taken + [chunk.message];
        left := left - 1;
      }
    }

    /** One turn of the loop: read, and give the stream's reader what was read. */
    method Turn(more: bool) returns (chunk: ReadResult)
      requires native.Valid() && reading
      modifies this`reading, this`pushed, this`ended
      modifies native`uvWake, native`threadWake, native`value, native.toUv`tail
      ensures native.Valid()
      ensures (native.value, chunk) == QueueModel.Read(old(native.value), Uv)
      ensures reading == (chunk.ReadBlocked? || (chunk.Received? && more))
      ensures pushed == old(pushed) + (if chunk.Received? then [chunk.message] else [])
      ensures ended == (old(ended) || chunk.EndOfStream?)
    {
      chunk := native.Read(Uv);
      match chunk
      case ReadBlocked =>
      case EndOfStream =>
        reading := false;
        ended := true;
      case Received(message) =>
        pushed := pushed + [message];
        reading := more;
    }

    /** The stream's reader asks for more. */
    method Read(demand: nat)
      requires native.Valid() && demand > 0
      modifies this`reading, this`pushed, this`ended
      modifies native`uvWake, native`threadWake, native`value, native.toUv`tail
      ensures native.Valid() && pendingWrite == old(pendingWrite)
      ensures native.value == DrainAll(old(native.value), demand).q
      ensures reading ==> !native.Readable(Uv)
      ensures reading == (|old(native.value).toUv| < demand && old(native.value).thread.Rank() < Ended.Rank())
    {
      DrainTakesFront(native.value, demand);
      reading := true;
      Drain(demand);
    }

    /** `failed` tells the writer that the ipc is closed; otherwise the chunk is sent or parked. */
    method Send(id: nat, chunk: seq<Byte>) returns (result: WriteResult)
      requires native.Valid()
      modifies this`pendingWrite
      modifies native`uvWake, native`threadWake, native`value, native.toThread`head, native.toThread.slots
      ensures native.Valid()
      ensures (native.value, Value(), result) ==
              StreamModel.Send(old(native.value), old(Value()).(pendingWrite := None), id, chunk)
    {
      pendingWrite := None;
      result := native.Write(Uv, id, chunk);
      match result
      case Rejected =>
      case WriteBlocked => pendingWrite := Some(chunk);
      case Written(n) =>
        if n < |chunk| {
          pendingWrite := Some(chunk[n..]);
        }
    }

    /** Sends what was parked, if anything. */
    method Retry(id: nat)
      requires native.Valid()
      modifies this`pendingWrite
      modifies native`uvWake, native`threadWake, native`value, native.toThread`head, native.toThread.slots
      ensures native.Valid()
      ensures (native.value, Value()) == Retried(old(native.value), old(Value()), id)
    {
      if pendingWrite.Some? {
        var result := Send(id, pendingWrite.value);
      }
    }

    /**
     What a wake of the worklet runs. Afterwards the stream has nothing left to
     do, unless the parked chunk is longer than one message may be.
     */
    method OnSignal(id: nat, demand: nat)
      requires native.Valid() && demand > 0
      requires pendingWrite.Some? ==> pendingWrite.value != []
      modifies this
      modifies native`uvWake, native`threadWake, native`value, native.toUv`tail, native.toThread`head, native.toThread.slots
      ensures native.Valid()
      ensures var (q, js) := Retried(old(native.value), old(Value()), id);
              var d := DrainIf(q, js.reading, demand);
              && native.value == d.q && Value() == js.(reading := d.reading)
              && pushed == old(pushed) + d.taken && ended == (old(ended) || d.ended)
      ensures reading ==> !native.Readable(Uv)
      ensures old(pendingWrite).Some? && |old(pendingWrite).value| <= INT_MAX ==>
                NothingToDo(native.value, Value())
    {
      ghost var q, js := native.value, Value();
      Retry(id);
      DrainTakesFront(native.value, demand);
      if js.pendingWrite.Some? && |js.pendingWrite.value| <= INT_MAX {
        RetryLeavesNothing(q, js, id, demand);
      }
      Drain(demand);
    }
  }
}
