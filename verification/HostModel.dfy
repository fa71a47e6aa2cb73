/** The host end of the ipc, on values: messages become a byte stream read in any sizes. */
module HostModel {
  import opened Options
  import opened Rings
  import opened QueueModel

  /** `port` is false once closed; `pending` is a message that the last read did not use up. */
  datatype Host = Host(port: bool, pending: Option<Message>, offset: nat) {
    ghost predicate Valid() {
      pending.Some? ==> port && offset < |pending.value.bytes|
    }

    function Rest(): seq<Byte> {
      if pending.Some? && offset <= |pending.value.bytes| then pending.value.bytes[offset..] else []
    }
  }

  datatype ReadOutcome = Bytes(bytes: seq<Byte>) | Eof | Blocked

  /** The bytes of a run of messages. */
  function Flatten(messages: seq<Message>): seq<Byte> {
    if messages == [] then [] else messages[0].bytes + Flatten(messages[1..])
  }

  lemma {:induction false} FlattenAppend(a: seq<Message>, b: seq<Message>)
    ensures Flatten(a + b) == Flatten(a) + Flatten(b)
  {
    if a == [] {
      assert a + b == b;
    } else {
      assert (a + b)[1..] == a[1..] + b;
      FlattenAppend(a[1..], b);
    }
  }

  /** What the host has yet to read, were the worklet to write nothing more. */
  function Unread(q: Queue, h: Host): seq<Byte> {
    h.Rest() + Flatten(q.toThread)
  }

  lemma UnreadGrows(q: Queue, h: Host, m: Message)
    ensures Unread(q.(toThread := q.toThread + [m]), h) == Unread(q, h) + m.bytes
  {
    FlattenAppend(q.toThread, [m]);
    assert Flatten([m]) == m.bytes;
  }

  /** Copies out up to `n` bytes of the pending message, and lets go of it once used up. */
  function Consume(h: Host, n: nat): (Host, ReadOutcome)
    requires h.pending.Some? && h.offset <= |h.pending.value.bytes|
  {
    var remaining := |h.pending.value.bytes| - h.offset;
    var len := if n > remaining then remaining else n;
    var offset := h.offset + len;
    var pending := if offset == |h.pending.value.bytes| then None else h.pending;
    (Host(h.port, pending, offset), Bytes(h.pending.value.bytes[h.offset..offset]))
  }

  /** A read up to and including its queue section: refill when nothing is pending, then copy out. */
  function Fetch(q: Queue, h: Host, n: nat): (Queue, Host, ReadOutcome)
    requires h.Valid()
  {
    if h.port && h.pending.None? then
      match Read(q, Thread)
      case (q', Received(message)) =>
        var (h', outcome) := Consume(h.(pending := Some(message), offset := 0), n);
        (q', h', outcome)
      case (q', EndOfStream) => (q', h.(offset := 0), Eof)
      case (q', ReadBlocked) => (q', h.(offset := 0), Blocked)
    else if h.pending.Some? then
      var (h', outcome) := Consume(h, n);
      (q, h', outcome)
    else (q, h, Eof)
  }

  /** The second section of a read that returned bytes: wake again while more remains. */
  function Resignal(q: Queue, h: Host): Queue {
    if h.pending.Some? || q.Readable(Thread) then q.(threadWake := true) else q
  }

  /** A read that nothing interrupts. */
  function ReadAlone(q: Queue, h: Host, n: nat): (Queue, Host, ReadOutcome)
    requires h.Valid()
  {
    var (q', h', outcome) := Fetch(q, h, n);
    (if outcome.Bytes? then Resignal(q', h') else q', h', outcome)
  }

  /** Whether a poll finds the ipc readable; a closed ipc reads end-of-stream. */
  predicate HostReadable(q: Queue, h: Host) {
    !h.port || h.pending.Some? || q.Readable(Thread)
  }

  predicate HostWritable(q: Queue, h: Host) {
    !h.port || q.Writable(Thread)
  }

  lemma ConsumeSplitsRest(h: Host, n: nat)
    requires h.pending.Some? && h.offset < |h.pending.value.bytes| && n > 0
    ensures var (h', outcome) := Consume(h, n);
            && outcome.bytes != []
            && |outcome.bytes| <= n
            && h.Rest() == outcome.bytes + h'.Rest()
            && (h.port ==> h'.Valid())
  {
  }

  /** A read takes bytes off the front of what is unread, and none when it returns none. */
  lemma FetchTakesPrefix(q: Queue, h: Host, n: nat)
    requires q.Valid() && h.Valid() && n > 0
    ensures var (q', h', outcome) := Fetch(q, h, n);
            && h'.Valid() && h'.port == h.port
            && (outcome.Bytes? ==> outcome.bytes != [] && |outcome.bytes| <= n
                                   && Unread(q, h) == outcome.bytes + Unread(q', h'))
            && (!outcome.Bytes? ==> q' == q && h'.pending.None? && Unread(q', h') == Unread(q, h))
  {
    if h.pending.Some? {
      ConsumeSplitsRest(h, n);
      SplitsUnread(h, n, Flatten(q.toThread));
    } else if h.port && q.toThread != [] {
      var refilled := h.(pending := Some(q.toThread[0]), offset := 0);
      assert q.toThread[0] in q.toThread;
      ConsumeSplitsRest(refilled, n);
      SplitsUnread(refilled, n, Flatten(q.toThread[1..]));
      assert refilled.Rest() == q.toThread[0].bytes;
      assert Unread(q, h) == refilled.Rest() + Flatten(q.toThread[1..]);
    }
  }

  /** The next message to read from, less what was read of it. */
  function Front(q: Queue, h: Host): seq<Byte> {
    if h.pending.Some? then h.Rest() else if q.toThread != [] then q.toThread[0].bytes else []
  }

  /** A read returns all of the next message that fits `n`, and keeps that message pending exactly if some is left. */
  lemma FetchTakesAllThatFits(q: Queue, h: Host, n: nat)
    requires q.Valid() && h.Valid() && n > 0
    ensures var (q', h', outcome) := Fetch(q, h, n);
            outcome.Bytes? ==>
              && h.port
              && |outcome.bytes| == (if n < |Front(q, h)| then n else |Front(q, h)|)
              && (h'.pending.Some? <==> n < |Front(q, h)|)
              && (h'.pending.Some? ==> h'.Rest() == Front(q, h)[n..])
              && q'.toThread == (if h.pending.Some? then q.toThread else q.toThread[1..])
  {
    if h.port && h.pending.None? && q.toThread != [] {
      assert q.toThread[0] in q.toThread;
    }
  }

  lemma SplitsUnread(h: Host, n: nat, rest: seq<Byte>)
    requires h.pending.Some? && h.offset < |h.pending.value.bytes| && n > 0
    ensures h.Rest() + rest == Consume(h, n).1.bytes + (Consume(h, n).0.Rest() + rest)
  {
    ConsumeSplitsRest(h, n);
  }

  /** A read blocks exactly when the ipc is not readable, and reads the end exactly when nothing is left. */
  lemma FetchOutcomeIsExact(q: Queue, h: Host, n: nat)
    requires q.Valid() && h.Valid() && n > 0
    ensures Fetch(q, h, n).2.Blocked? <==> !HostReadable(q, h)
    ensures h.port ==> (Fetch(q, h, n).2.Eof? <==> q.uv.Rank() >= Ended.Rank() && Unread(q, h) == [])
    ensures !h.port ==> Fetch(q, h, n).2.Eof?
  {
    ReadableIsExact(q, Thread);
    FetchTakesPrefix(q, h, n);
    if h.port && h.pending.None? && q.toThread == [] {
      assert Unread(q, h) == [];
    }
  }

  /** What one uninterrupted read does to the stream. */
  lemma ReadAloneFollowsStream(q: Queue, h: Host, n: nat)
    requires q.Valid() && h.Valid() && n > 0
    ensures var (q', h', outcome) := ReadAlone(q, h, n);
            && q'.Valid() && h'.Valid()
            && (outcome.Bytes? ==> 0 < |outcome.bytes| <= n && outcome.bytes + Unread(q', h') == Unread(q, h))
            && (!outcome.Bytes? ==> Unread(q', h') == Unread(q, h))
            && (outcome.Eof? && h.port ==> Unread(q, h) == [] && q.uv.Rank() >= Ended.Rank())
  {
    FetchTakesPrefix(q, h, n);
    FetchOutcomeIsExact(q, h, n);
    ReadKeepsValid(q, Thread);
  }
}
