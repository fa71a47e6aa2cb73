/** What the queue's sections mean to its users, said of what they can observe. */
module QueueLaws {
  import opened Rings
  import opened QueueModel

  // Writes

  /** A write fails exactly once its own end has ended or the peer has closed, and what is not taken changes nothing. */
  lemma WriteIsRejectedExactly(q: Queue, e: End, id: nat, data: seq<Byte>)
    requires data != []
    ensures Write(q, e, id, data).1.Rejected? <==> q.State(e).Rank() >= Ended.Rank() || q.State(e.Peer()).Closed?
    ensures !Write(q, e, id, data).1.Written? ==> Write(q, e, id, data).0 == q
  {
  }

  /** A write that is taken is taken whole, up to what an int counts, and is the last message for the peer. */
  lemma WriteIsWhole(q: Queue, e: End, id: nat, data: seq<Byte>)
    requires data != [] && Write(q, e, id, data).1.Written?
    ensures var (q', result) := Write(q, e, id, data);
            && result.n == (if |data| <= INT_MAX then |data| else INT_MAX)
            && q'.Inbox(e.Peer()) == q.Inbox(e.Peer()) + [Message(id, data[..result.n])]
            && q'.Inbox(e) == q.Inbox(e)
            && q'.State(e) == q.State(e) && q'.State(e.Peer()) == q.State(e.Peer())
  {
    assert e.Peer().Peer() == e;
    assert Clamp(data) == data[..|Clamp(data)|];
  }

  /** A write of nothing does nothing, whatever the ends are. */
  lemma EmptyWriteIsNothing(q: Queue, e: End, id: nat)
    ensures Write(q, e, id, []) == (q, Written(0))
  {
  }

  // Ends and closes

  /** An end reaches the state that it moves to, or stays in a later one; nothing else moves. */
  lemma AdvanceReaches(q: Queue, e: End, state: EndState)
    ensures var q' := Advance(q, e, state).0;
            && q'.State(e).Rank() == (if q.State(e).Rank() < state.Rank() then state.Rank() else q.State(e).Rank())
            && q'.State(e.Peer()) == q.State(e.Peer())
            && q'.toUv == q.toUv && q'.toThread == q.toThread && q'.destroyed == q.destroyed
  {
    assert e.Peer().Peer() == e;
  }

  /** From an end's end on, in any continuation, the peer's reads do not block and the end's own writes fail. */
  lemma EndReachesPeer(q: Queue, e: End, state: EndState, ops: seq<Op>, id: nat, data: seq<Byte>)
    requires state.Rank() >= Ended.Rank() && LegalRun(Advance(q, e, state).0, ops) && data != []
    ensures var t := ApplyAll(Advance(q, e, state).0, ops);
            && !Read(t, e.Peer()).1.ReadBlocked?
            && Write(t, e, id, data) == (t, Rejected)
  {
    var q' := Advance(q, e, state).0;
    var t := ApplyAll(q', ops);
    assert e.Peer().Peer() == e;
    AdvanceReaches(q, e, state);
    EndsMoveForward(q', ops, e);
    ReadableIsExact(t, e.Peer());
    WriteIsRejectedExactly(t, e, id, data);
  }

  /** From its close on the peer's writes fail too. */
  lemma CloseReachesPeer(q: Queue, e: End, ops: seq<Op>, id: nat, data: seq<Byte>)
    requires LegalRun(Advance(q, e, Closed).0, ops) && data != []
    ensures var t := ApplyAll(Advance(q, e, Closed).0, ops);
            Write(t, e.Peer(), id, data) == (t, Rejected)
  {
    var q' := Advance(q, e, Closed).0;
    var t := ApplyAll(q', ops);
    assert e.Peer().Peer() == e;
    AdvanceReaches(q, e, Closed);
    EndsMoveForward(q', ops, e);
    WriteIsRejectedExactly(t, e.Peer(), id, data);
  }

  /** A half-close takes nothing from the peer's writing, nor from the end's own reading. */
  lemma EndLeavesPeerWriting(q: Queue, e: End, id: nat, data: seq<Byte>)
    requires q.State(e).Rank() <= Ended.Rank()
    ensures var q' := Advance(q, e, Ended).0;
            && Write(q', e.Peer(), id, data).1 == Write(q, e.Peer(), id, data).1
            && Read(q', e).1 == Read(q, e).1
  {
    assert e.Peer().Peer() == e;
  }

  // Wakes

  /** What end `e` is woken for: its first message, room after none, its peer's end, or what came before its open. */
  predicate IsEvent(q: Queue, op: Op, e: End) {
    match op
    case OpWrite(w, _, _) => w == e.Peer() && q.Inbox(e) == [] && Apply(q, op).Inbox(e) != []
    case OpRead(r) => r == e.Peer() && q.Full(q.Inbox(r)) && q.Inbox(r) != [] && |Apply(q, op).Inbox(r)| < |q.Inbox(r)|
    case OpAdvance(a, _) => a == e.Peer()
    case OpOpenUv => e.Uv? && q.toUv != []
    case OpOpenThread => e.Thread? && q.thread.Idle? && q.toThread != []
    case _ => false
  }

  /** An end has a wake pending exactly if it had one that was not taken, or it listens and this was such an event. */
  lemma WakesAreExact(q: Queue, op: Op, e: End)
    requires q.Valid() && op.Legal(q)
    ensures Apply(q, op).Woken(e) <==>
            (q.Woken(e) && op != OpWake(e)) || (Apply(q, op).State(e).Listening() && IsEvent(q, op, e))
  {
    assert e.Peer().Peer() == e;
    match op
    case OpWrite(w, id, data) => WriteWakes(q, w, id, data, e);
    case OpRead(r) => ReadWakes(q, r, e);
    case OpAdvance(a, state) => AdvanceWakes(q, a, state, e);
    case OpOpenUv =>
    case OpOpenThread =>
    case OpDestroy =>
    case OpWake(_) =>
  }

  lemma WriteWakes(q: Queue, w: End, id: nat, data: seq<Byte>, e: End)
    ensures var q' := Write(q, w, id, data).0;
            && q'.State(e) == q.State(e)
            && (q'.Woken(e) <==>
                q.Woken(e) || (q.State(e).Listening() && w == e.Peer() && q.Inbox(e) == [] && q'.Inbox(e) != []))
  {
  }

  lemma ReadWakes(q: Queue, r: End, e: End)
    requires q.Valid()
    ensures var q' := Read(q, r).0;
            && q'.State(e) == q.State(e)
            && (q'.Woken(e) <==>
                || q.Woken(e)
                || (q.State(e).Listening() && r == e.Peer() && q.Full(q.Inbox(r)) && q.Inbox(r) != []
                    && |q'.Inbox(r)| < |q.Inbox(r)|))
  {
  }

  lemma AdvanceWakes(q: Queue, a: End, state: EndState, e: End)
    ensures var q' := Advance(q, a, state).0;
            q'.Woken(e) <==> q.Woken(e) || (q'.State(e).Listening() && a == e.Peer())
  {
  }

  /** An open that finds messages leaves its end a wake, and they are the next that it reads. */
  lemma OpenCatchesUp(q: Queue, e: End)
    requires q.Valid() && q.State(e).Idle? && q.Inbox(e) != []
    ensures var q' := if e.Uv? then OpenUv(q) else OpenThread(q).0;
            && q'.State(e).Open? && q'.Woken(e) && Read(q', e).1 == Received(q.Inbox(e)[0])
  {
  }
}
