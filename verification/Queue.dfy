/** The queue as the source keeps it: two masked rings, two end states and wake flags, updated in place. */
module Queues {
  import opened Rings
  import opened Bits
  import opened M = QueueModel

  class SharedQueue {
    const toUv: Ring
    const toThread: Ring
    var uvState: EndState
    var threadState: EndState
    var destroyed: bool
    var uvWake: bool     // uv_async_send on the worklet's loop, coalesced
    var threadWake: bool // The host's signal callback, coalesced by its own async

    /** The value this queue stands for. */
    ghost var value: Queue

    ghost predicate Valid()
      reads this, toUv, toThread, toUv.slots, toThread.slots
    {
      && toUv != toThread && toUv.slots != toThread.slots
      && toUv.Valid() && toThread.Valid()
      && toUv.slots.Length == toThread.slots.Length
      && value == M.Queue(toUv.slots.Length, toUv.Contents(), toThread.Contents(),
                          uvState, threadState, destroyed, uvWake, threadWake)
      && value.Valid()
    }

    ghost function Footprint(): set<object>
    {
      {this, toUv, toThread, toUv.slots, toThread.slots}
    }

    constructor (bits: nat)
      ensures Valid() && fresh(Footprint())
      ensures value == M.Create(Pow2(bits))
    {
      toUv := new Ring(bits);
      toThread := new Ring(bits);
      uvState, threadState := Idle, Idle;
      destroyed, uvWake, threadWake := false, false, false;
      value := M.Create(Pow2(bits));
    }

    /** A queue of the source's capacity. */
    static method Create() returns (queue: SharedQueue)
      ensures fresh(queue) && fresh(queue.Footprint())
      ensures queue.Valid() && queue.value == M.Create(CAPACITY)
    {
      TenBits();
      queue := new SharedQueue(10);
    }

    static lemma TenBits()
      ensures Pow2(10) == CAPACITY
    {
      assert Pow2(5) == 32;
    }

    function Inbox(e: End): Ring {
      if e.Uv? then toUv else toThread
    }

    function Outbox(e: End): Ring {
      if e.Uv? then toThread else toUv
    }

    function State(e: End): EndState
      reads this
    {
      if e.Uv? then uvState else threadState
    }

    method SignalPeer(e: End)
      requires Valid()
      modifies this`uvWake, this`threadWake, this`value
      ensures Valid() && value == old(value).Signal(e.Peer())
    {
      if e.Uv? {
        if threadState.Listening() {
          threadWake := true;
        }
      } else {
        if uvState.Listening() {
          uvWake := true;
        }
      }
      value := value.Signal(e.Peer());
    }

    method OpenUv()
      requires Valid()
      modifies this`uvState, this`uvWake, this`value
      ensures Valid() && value == M.OpenUv(old(value))
    {
      uvState := Open;
      var pending := !toUv.Empty();
      if pending {
        uvWake := true;
      }
      value := M.OpenUv(value);
    }

    /** False if the host end was opened before. */
    method OpenThread() returns (ok: bool)
      requires Valid()
      modifies this`threadState, this`threadWake, this`value
      ensures Valid() && (value, ok) == M.OpenThread(old(value))
    {
      if !threadState.Idle? {
        return false;
      }
      threadState := Open;
      if !toThread.Empty() {
        threadWake := true;
      }
      value := M.OpenThread(value).0;
      return true;
    }

    method Write(e: End, id: nat, data: seq<Byte>) returns (result: WriteResult)
      requires Valid()
      modifies this`uvWake, this`threadWake, this`value, Outbox(e)`head, Outbox(e).slots
      ensures Valid() && (value, result) == M.Write(old(value), e, id, data)
    {
      if |data| == 0 {
        return Written(0);
      }
      var span := if |data| > INT_MAX then data[..INT_MAX] else data;
      var ring := Outbox(e);
      var wasEmpty := ring.Empty();
      result := Written(|span|);
      if State(e).Rank() >= Ended.Rank() || State(e.Peer()).Closed? {
        result := Rejected;
      } else {
        var pushed := Push(e, Message(id, span));
        if !pushed {
          result := WriteBlocked;
        } else if wasEmpty {
          SignalPeer(e);
        }
      }
    }

    method Push(e: End, message: Message) returns (ok: bool)
      requires Valid() && message.bytes != []
      modifies this`value, Outbox(e)`head, Outbox(e).slots
      ensures Valid()
      ensures ok == !old(value).Full(old(value).Inbox(e.Peer()))
      ensures value == if ok then old(value).WithInbox(e.Peer(), old(value).Inbox(e.Peer()) + [message]) else old(value)
    {
      var ring := Outbox(e);
      assert NoneEmpty(ring.Contents() + [message]);
      ok := ring.Push(message);
      value := value.WithInbox(e.Peer(), ring.Contents());
    }

    method Read(e: End) returns (result: ReadResult)
      requires Valid()
      modifies this`uvWake, this`threadWake, this`value, Inbox(e)`tail
      ensures Valid() && (value, result) == M.Read(old(value), e)
    {
      var wasFull := Inbox(e).Full();
      var shifted, message := Take(e);
      var peerEnded := State(e.Peer()).Rank() >= Ended.Rank();
      if shifted && wasFull {
        SignalPeer(e);
      }
      if shifted {
        return Received(message);
      } else if peerEnded {
        return EndOfStream;
      } else {
        return ReadBlocked;
      }
    }

    method Take(e: End) returns (shifted: bool, message: Message)
      requires Valid()
      modifies this`value, Inbox(e)`tail
      ensures Valid() && shifted == (old(value).Inbox(e) != [])
      ensures shifted ==> message == old(value).Inbox(e)[0]
      ensures value == if shifted then old(value).WithInbox(e, old(value).Inbox(e)[1..]) else old(value)
    {
      var ring := Inbox(e);
      ghost var was := ring.Contents();
      shifted, message := ring.Shift();
      if shifted {
        assert was[1..] == ring.Contents();
        assert NoneEmpty(was[1..]);
        value := value.WithInbox(e, was[1..]);
      }
    }

    predicate Unowned()
      reads this
    {
      destroyed && (threadState.Idle? || threadState.Closed?)
    }

    /** Ends or closes an end; `unowned` tells the caller to free the queue. */
    method Advance(e: End, state: EndState) returns (unowned: bool)
      requires Valid()
      modifies this
      ensures Valid() && (value, unowned) == M.Advance(old(value), e, state)
    {
      if State(e).Rank() < state.Rank() {
        if e.Uv? {
          uvState := state;
        } else {
          threadState := state;
        }
        value := value.WithState(e, state);
      }
      SignalPeer(e);
      unowned := Unowned();
    }

    method Destroy() returns (unowned: bool)
      requires Valid()
      modifies this`destroyed, this`value
      ensures Valid() && (value, unowned) == M.Destroy(old(value))
    {
      destroyed := true;
      value := M.Destroy(value).0;
      unowned := Unowned();
    }

    predicate Readable(e: End)
      requires Valid()
      reads this, toUv, toThread, toUv.slots, toThread.slots
      ensures Readable(e) == value.Readable(e)
    {
      !Inbox(e).Empty() || State(e.Peer()).Rank() >= Ended.Rank()
    }

    predicate Writable(e: End)
      requires Valid()
      reads this, toUv, toThread, toUv.slots, toThread.slots
      ensures Writable(e) == value.Writable(e)
    {
      !Outbox(e).Full() || State(e).Rank() >= Ended.Rank() || State(e.Peer()).Closed?
    }

    /** Drains both rings and gives up their buffers, each once and oldest first. */
    method Free() returns (freed: seq<Message>)
      requires Valid()
      modifies this`value, toUv`tail, toThread`tail
      ensures Valid() && value == old(value).(toUv := [], toThread := [])
      ensures freed == old(value).toUv + old(value).toThread
    {
      var uvFreed := Drain(toUv);
      var threadFreed := Drain(toThread);
      freed := uvFreed + threadFreed;
      value := value.(toUv := [], toThread := []);
      assert value.Valid();
    }

    static method Drain(ring: Ring) returns (freed: seq<Message>)
      requires ring.Valid()
      modifies ring`tail
      ensures ring.Valid() && ring.Contents() == [] && freed == old(ring.Contents())
    {
      freed := [];
      var shifted, message := ring.Shift();
      while shifted
        invariant ring.Valid()
        invariant !shifted ==> ring.Contents() == [] && freed == old(ring.Contents())
        invariant shifted ==> freed + ([message] + ring.Contents()) == old(ring.Contents())
        decreases shifted, |ring.Contents()|
      {
        ghost var rest := ring.Contents();
        AppendNext(freed, message, rest);
        freed := freed + [message];
        shifted, message := ring.Shift();
        assert !shifted ==> rest == [];
      }
    }

    static lemma AppendNext(freed: seq<Message>, message: Message, rest: seq<Message>)
      ensures freed + ([message] + rest) == freed + [message] + rest
    {
    }
  }
}
