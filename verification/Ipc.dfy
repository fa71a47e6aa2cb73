/** The host end as the source keeps it: an object that reads into a caller's buffer. */
module Ipcs {
  import opened Options
  import opened Rings
  import opened QueueModel
  import opened HostModel
  import opened Queues

  const WOULD_BLOCK: int := -1
  const ERROR: int := -2

  /** The bits of a poll's event mask. */
  datatype Events = Events(readable: bool, writable: bool) {
    predicate None() {
      !readable && !writable
    }
  }

  /** What a poll is told, given the events it asked for. */
  function Ready(q: Queue, h: Host, asked: Events): Events {
    Events(asked.readable && HostReadable(q, h), asked.writable && HostWritable(q, h))
  }

  /** An ipc is told readable exactly if asked and a read would not block, and writable likewise. */
  lemma ReadyIsExact(q: Queue, h: Host, asked: Events)
    requires q.Valid() && h.Valid()
    ensures Ready(q, h, asked).readable <==> asked.readable && ReadsGo(q, h)
    ensures Ready(q, h, asked).writable <==> asked.writable && (!h.port || WritesGo(q))
  {
    ReadsGoExactly(q, h);
    WritesGoExactly(q);
  }

  /** No read of the host blocks. */
  ghost predicate ReadsGo(q: Queue, h: Host)
    requires h.Valid()
  {
    forall n: nat :: n > 0 ==> !Fetch(q, h, n).2.Blocked?
  }

  /** No write of the host of a byte or more blocks. */
  ghost predicate WritesGo(q: Queue) {
    forall id, data :: data != [] ==> !QueueModel.Write(q, Thread, id, data).1.WriteBlocked?
  }

  lemma ReadsGoExactly(q: Queue, h: Host)
    requires q.Valid() && h.Valid()
    ensures ReadsGo(q, h) <==> HostReadable(q, h)
  {
    forall n: nat | n > 0
      ensures Fetch(q, h, n).2.Blocked? <==> !HostReadable(q, h)
    {
      FetchOutcomeIsExact(q, h, n);
    }
    assert Fetch(q, h, 1).2.Blocked? <==> !HostReadable(q, h);
  }

  lemma WritesGoExactly(q: Queue)
    ensures WritesGo(q) <==> q.Writable(Thread)
  {
    forall id, data | data != []
      ensures QueueModel.Write(q, Thread, id, data).1.WriteBlocked? <==> !q.Writable(Thread)
    {
      WritableIsExact(q, Thread, id, data);
    }
    assert QueueModel.Write(q, Thread, 0, [0]).1.WriteBlocked? <==> !q.Writable(Thread);
  }

  class Ipc {
    const queue: SharedQueue
    var port: bool
    var pending: Option<Message>
    var offset: nat

    ghost predicate Valid()
      reads this, queue, queue.toUv, queue.toThread, queue.toUv.slots, queue.toThread.slots
    {
      queue.Valid() && Value().Valid() && (port ==> queue.threadState.Listening())
    }

    ghost function Value(): Host
      reads this
    {
      Host(port, pending, offset)
    }

    /** The bytes the host has yet to read. */
    ghost function Stream(): seq<Byte>
      requires Valid()
      reads this, queue, queue.toUv, queue.toThread, queue.toUv.slots, queue.toThread.slots
    {
      Unread(queue.value, Value())
    }

    /** Nothing is open yet. */
    constructor (queue: SharedQueue)
      requires queue.Valid()
      ensures Valid() && this.queue == queue && Value() == Host(false, None, 0)
    {
      this.queue := queue;
      port, pending, offset := false, None, 0;
    }

    /** Null if the host end was opened before; the ipc made for it is then let go of, and the queue is as it was. */
    static method Create(queue: SharedQueue) returns (result: Ipc?)
      requires queue.Valid()
      modifies queue`threadState, queue`threadWake, queue`value
      ensures queue.Valid() && (result == null <==> !old(queue.value).thread.Idle?)
      ensures result == null ==> queue.value == old(queue.value)
      ensures result != null ==>
                && fresh(result) && result.Valid() && result.queue == queue
                && result.Value() == Host(true, None, 0)
                && queue.value == OpenThread(old(queue.value)).0
    {
      var ipc := new Ipc(queue);
      ipc.port := queue.OpenThread();
      result := if ipc.port then ipc else null;
    }

    /** Wakes the poll thread, whatever the state of the ends. */
    method Signal()
      requires Valid()
      modifies queue`threadWake, queue`value
      ensures Valid() && queue.value == old(queue.value).(threadWake := true)
    {
      queue.threadWake := true;
      queue.value := queue.value.(threadWake := true);
    }

    /**
     Reads up to `len` bytes into `data`. The bytes returned are the next ones of
     the stream, and 0 means that the stream has ended and is used up.
     */
    method Read(data: array<Byte>, len: nat) returns (result: int)
      requires Valid() && 0 < len <= data.Length
      modifies this`pending, this`offset, data
      modifies queue`uvWake, queue`threadWake, queue`value, queue.toThread`tail
      ensures Valid()
      ensures var span := if len > INT_MAX then INT_MAX else len;
              var (q, h, outcome) := ReadAlone(old(queue.value), old(Value()), span);
              && queue.value == q && Value() == h
              && match outcome {
                   case Bytes(bytes) => result == |bytes| && result <= data.Length && data[..result] == bytes
                   case Eof => result == 0
                   case Blocked => result == WOULD_BLOCK
                 }
      ensures 0 < result ==> result <= len && data[..result] + Stream() == old(Stream())
      ensures result <= 0 ==> Stream() == old(Stream())
      ensures result == 0 && port ==> Stream() == [] && queue.uvState.Rank() >= Ended.Rank()
    {
      var n := if len > INT_MAX then INT_MAX else len;
      ReadAloneFollowsStream(queue.value, Value(), n);
      result := 0;
      if port && pending.None? {
        result := Refill();
      }
      if pending.Some? {
        result := CopyOut(data, n);
        SignalRest();
      }
    }

    /** Signals after a read that left something behind: a poller's next read needs no event of the queue. */
    method SignalRest()
      requires Valid()
      modifies queue`threadWake, queue`value
      ensures Valid() && queue.value == Resignal(old(queue.value), Value())
    {
      if pending.Some? || queue.Readable(Thread) {
        Signal();
      }
    }

    /** Takes the next message, if any; 0 says that there is none because the worklet has ended. */
    method Refill() returns (result: int)
      requires Valid() && port && pending.None?
      modifies this`pending, this`offset
      modifies queue`uvWake, queue`threadWake, queue`value, queue.toThread`tail
      ensures Valid() && port && offset == 0
      ensures queue.value == QueueModel.Read(old(queue.value), Thread).0
      ensures match QueueModel.Read(old(queue.value), Thread).1 {
                case Received(message) => pending == Some(message) && result == 0
                case EndOfStream => pending.None? && result == 0
                case ReadBlocked => pending.None? && result == WOULD_BLOCK
              }
    {
      ghost var ring := queue.toThread.Contents();
      assert ring != [] ==> ring[0] in ring;
      offset := 0;
      result := 0;
      var next := queue.Read(Thread);
      match next
      case Received(message) => pending := Some(message);
      case EndOfStream =>
      case ReadBlocked => result := WOULD_BLOCK;
    }

    static method Copy(data: array<Byte>, bytes: seq<Byte>)
      requires |bytes| <= data.Length
      modifies data
      ensures data[..|bytes|] == bytes
    {
      forall i | 0 <= i < |bytes| {
        data[i] := bytes[i];
      }
    }

    /** Moves up to `n` bytes of the pending message to the caller, letting go of it once used up. */
    method CopyOut(data: array<Byte>, n: nat) returns (result: int)
      requires Valid() && pending.Some? && n <= data.Length
      modifies this`pending, this`offset, data
      ensures Valid() && queue.value == old(queue.value)
      ensures Value() == Consume(old(Value()), n).0
      ensures var bytes := Consume(old(Value()), n).1.bytes;
              result == |bytes| && result <= data.Length && data[..result] == bytes
    {
      var message := pending.value;
      var remaining := |message.bytes| - offset;
      var len := if n > remaining then remaining else n;
      var bytes := message.bytes[offset..offset + len];
      Copy(data, bytes);
      assert Consume(Value(), n).1.bytes == bytes;
      offset := offset + len;
      if offset == |message.bytes| {
        pending := None;
      }
      result := len;
    }

    /** Returns the bytes taken, `WOULD_BLOCK`, or `ERROR` once the ipc or the worklet end is closed. */
    method Write(id: nat, data: seq<Byte>) returns (result: int)
      requires Valid()
      modifies queue`uvWake, queue`threadWake, queue`value, queue.toUv`head, queue.toUv.slots
      ensures Valid() && Value() == old(Value())
      ensures var outcome := if port then QueueModel.Write(old(queue.value), Thread, id, data)
                             else (old(queue.value), Rejected);
              && queue.value == outcome.0
              && match outcome.1 {
                   case Written(n) => result == n
                   case WriteBlocked => result == WOULD_BLOCK
                   case Rejected => result == ERROR
                 }
    {
      var n := Rejected;
      if port {
        n := queue.Write(Thread, id, data);
      }
      match n
      case Written(k) => result := k;
      case WriteBlocked => result := WOULD_BLOCK;
      case Rejected => result := ERROR;
    }

    /** Half-closes, and wakes the poll so that it sees that writes now fail. The queue is never freed here. */
    method End()
      requires Valid()
      modifies queue
      ensures Valid() && Value() == old(Value())
      ensures queue.value == if port then Advance(old(queue.value), Thread, Ended).0.(threadWake := true)
                             else old(queue.value)
      ensures port ==> queue.threadState.Ended? && !Advance(old(queue.value), Thread, Ended).1
    {
      if port {
        var unowned := queue.Advance(Thread, Ended);
        assert !unowned;
        Signal();
      }
    }

    /** Gives up the ipc's share of the queue; `freed` holds the buffers let go of, if it was the last. */
    method Close() returns (freed: seq<Message>)
      requires Valid()
      modifies this`port, this`pending, queue, queue.toUv`tail, queue.toThread`tail
      ensures Valid() && !port && pending.None?
      ensures old(port) ==>
                var (q, unowned) := Advance(old(queue.value), Thread, Closed);
                && queue.value == (if unowned then q.(toUv := [], toThread := []) else q).(threadWake := true)
                && freed == (if unowned then q.toUv + q.toThread else [])
                            + (if old(pending).Some? then [old(pending).value] else [])
      ensures !old(port) ==> queue.value == old(queue.value) && freed == []
    {
      freed := [];
      if port {
        var unowned := queue.Advance(Thread, Closed);
        if unowned {
          freed := queue.Free();
        }
        port := false;
        if pending.Some? {
          freed := freed + [pending.value];
        }
        pending := None;
        Signal();
      }
    }

    /** Which of the events asked for are ready. */
    method Dispatch(asked: Events) returns (ready: Events)
      requires Valid()
      ensures ready == Ready(queue.value, Value(), asked)
      ensures ready.readable <==> asked.readable && ReadsGo(queue.value, Value())
      ensures ready.writable <==> asked.writable && (!port || WritesGo(queue.value))
    {
      ReadyIsExact(queue.value, Value(), asked);
      ready := asked;
      if port {
        if pending.None? && !queue.Readable(Thread) {
          ready := ready.(readable := false);
        }
        if !queue.Writable(Thread) {
          ready := ready.(writable := false);
        }
      }
    }
  }
}
