/**
 The locks of an ipc, for any number of threads: the poll thread's recursive
 `running`, then the ipc's, then the queue's. Every call takes them in that
 order, so some thread can always go on, also while a destroy joins. A create
 that is refused has made a poll thread of its own, a spare one, and joins that.
 */
module Deadlock {

  datatype Lock = Running | IpcLock | QueueLock {
    function Rank(): nat {
      match this
      case Running => 0
      case IpcLock => 1
      case QueueLock => 2
    }
  }

  /** What a refused create does to its spare poll thread and to that one's `running`. */
  datatype SpareAct = Make | Hold | Release | Close | Await

  /** What a thread does to locks and to poll threads, in the order of its code. */
  datatype Act = Take(l: Lock) | Drop(l: Lock) | SendClose | Join | Spare(act: SpareAct)

  /** An API call, with the outcome that decides which sections it runs. */
  datatype Call =
    | Create(refused: bool)
    | Read(refill: bool, found: bool) // Nothing was pending; bytes were returned with nothing left pending
    | Write(open: bool)
    | EndOrClose(open: bool)
    | Destroy(open: bool)
    | PollCreateOrDestroy
    | PollStartOrStop
    | QueueCall                       // From the worklet, whose signal of the host takes no lock

  const QUEUE_SECTION: seq<Act> := [Take(QueueLock), Drop(QueueLock)]

  const DESTROY_SPARE: seq<Act> := [Spare(Hold), Spare(Release), Spare(Close), Spare(Await)]

  function UnderIpcLock(acts: seq<Act>): seq<Act> {
    [Take(IpcLock)] + acts + [Drop(IpcLock)]
  }

  /** `onPoll` says that the poll thread itself makes the call, from a callback. */
  function Script(call: Call, onPoll: bool): seq<Act> {
    match call
    case Create(refused) =>
      if refused then [Spare(Make)] + QUEUE_SECTION + DESTROY_SPARE else QUEUE_SECTION
    case Read(refill, found) =>
      UnderIpcLock((if refill then QUEUE_SECTION else []) + (if found then QUEUE_SECTION else []))
    case Write(open) => UnderIpcLock(if open then QUEUE_SECTION else [])
    case EndOrClose(open) => UnderIpcLock(if open then QUEUE_SECTION else [])
    case Destroy(open) =>
      UnderIpcLock(if open then QUEUE_SECTION else [])
      + [Take(Running), Drop(Running), SendClose] + (if onPoll then [] else [Join])
    case PollCreateOrDestroy => [Take(Running), Drop(Running)]
    case PollStartOrStop => []
    case QueueCall => QUEUE_SECTION
  }

  function Scripts(calls: seq<Call>): seq<Act> {
    if calls == [] then [] else Script(calls[0], true) + Scripts(calls[1..])
  }

  /** Without a poll to call nothing is checked; else readability and writability each need the queue or not. */
  datatype Checks = NoPoll | Checks(readable: bool, writable: bool)

  function ChecksScript(checks: Checks): seq<Act> {
    match checks
    case NoPoll => []
    case Checks(readable, writable) =>
      UnderIpcLock((if readable then QUEUE_SECTION else []) + (if writable then QUEUE_SECTION else []))
  }

  /** A wake of the poll thread: the readiness checks, then a callback that makes `calls`. */
  function DispatchScript(checks: Checks, calls: seq<Call>): seq<Act> {
    [Take(Running)]
    + ChecksScript(checks)
    + Scripts(calls)
    + [Drop(Running)]
  }

  /** The lock may be taken by who holds `held`: it ranks above them all, or is the recursive one again. */
  predicate InOrder(l: Lock, held: seq<Lock>) {
    (l.Running? && l in held) || forall h :: h in held ==> h.Rank() < l.Rank()
  }

  /** Locks are taken in order and dropped last first; a join holds none; nothing is held at the end. */
  predicate Disciplined(acts: seq<Act>, held: seq<Lock>) {
    if acts == [] then held == []
    else
      match acts[0]
      case Take(l) => InOrder(l, held) && Disciplined(acts[1..], held + [l])
      case Drop(l) => held != [] && held[|held| - 1] == l && Disciplined(acts[1..], held[..|held| - 1])
      case SendClose => Disciplined(acts[1..], held)
      case Join => held == [] && Disciplined(acts[1..], held)
      case Spare(_) => (forall h :: h in held ==> h.Running?) && Disciplined(acts[1..], held)
  }

  lemma TakeDrop(l: Lock, inner: seq<Act>, rest: seq<Act>, held: seq<Lock>)
    requires InOrder(l, held)
    requires Disciplined(inner + ([Drop(l)] + rest), held + [l])
    ensures Disciplined([Take(l)] + inner + [Drop(l)] + rest, held)
  {
    var acts := [Take(l)] + inner + [Drop(l)] + rest;
    assert acts[1..] == inner + ([Drop(l)] + rest);
  }

  lemma DropThen(l: Lock, rest: seq<Act>, held: seq<Lock>)
    requires Disciplined(rest, held)
    ensures Disciplined([Drop(l)] + rest, held + [l])
  {
    assert ([Drop(l)] + rest)[1..] == rest;
    assert (held + [l])[..|held|] == held;
  }

  lemma SectionThen(rest: seq<Act>, held: seq<Lock>)
    requires Disciplined(rest, held) && QueueLock !in held
    ensures Disciplined(QUEUE_SECTION + rest, held)
  {
    DropThen(QueueLock, rest, held);
    assert (QUEUE_SECTION + rest)[1..] == [Drop(QueueLock)] + rest;
  }

  lemma SectionsThen(first: bool, second: bool, rest: seq<Act>, held: seq<Lock>)
    requires Disciplined(rest, held) && QueueLock !in held
    ensures Disciplined((if first then QUEUE_SECTION else []) + (if second then QUEUE_SECTION else []) + rest, held)
  {
    var b := if second then QUEUE_SECTION else [];
    if second {
      SectionThen(rest, held);
    } else {
      assert b + rest == rest;
    }
    if first {
      SectionThen(b + rest, held);
      assert QUEUE_SECTION + b + rest == QUEUE_SECTION + (b + rest);
    } else {
      assert [] + b + rest == b + rest;
    }
  }

  lemma IpcSectionsThen(first: bool, second: bool, rest: seq<Act>, held: seq<Lock>)
    requires Disciplined(rest, held) && QueueLock !in held && IpcLock !in held
    ensures Disciplined(UnderIpcLock((if first then QUEUE_SECTION else []) + (if second then QUEUE_SECTION else []))
                        + rest, held)
  {
    DropThen(IpcLock, rest, held);
    SectionsThen(first, second, [Drop(IpcLock)] + rest, held + [IpcLock]);
    var inner := (if first then QUEUE_SECTION else []) + (if second then QUEUE_SECTION else []);
    TakeDrop(IpcLock, inner, rest, held);
  }

  lemma RunningThen(rest: seq<Act>, held: seq<Lock>)
    requires Disciplined(rest, held) && (held == [] || held == [Running])
    ensures Disciplined([Take(Running), Drop(Running)] + rest, held)
  {
    DropThen(Running, rest, held);
    assert ([Take(Running), Drop(Running)] + rest)[1..] == [Drop(Running)] + rest;
  }

  lemma SpareThen(act: SpareAct, rest: seq<Act>, held: seq<Lock>)
    requires Disciplined(rest, held) && forall h :: h in held ==> h.Running?
    ensures Disciplined([Spare(act)] + rest, held)
  {
    assert ([Spare(act)] + rest)[1..] == rest;
  }

  lemma RefusedScript(rest: seq<Act>)
    ensures [Spare(Make)] + QUEUE_SECTION + DESTROY_SPARE + rest
            == [Spare(Make)] + (QUEUE_SECTION + ([Spare(Hold)] + ([Spare(Release)] + ([Spare(Close)] + ([Spare(Await)] + rest)))))
  {
  }

  lemma RefusedThen(rest: seq<Act>, held: seq<Lock>)
    requires Disciplined(rest, held) && forall h :: h in held ==> h.Running?
    ensures Disciplined([Spare(Make)] + QUEUE_SECTION + DESTROY_SPARE + rest, held)
  {
    var acts := [Spare(Await)] + rest;
    SpareThen(Await, rest, held);
    SpareThen(Close, acts, held);
    acts := [Spare(Close)] + acts;
    SpareThen(Release, acts, held);
    acts := [Spare(Release)] + acts;
    SpareThen(Hold, acts, held);
    acts := [Spare(Hold)] + acts;
    SectionThen(acts, held);
    SpareThen(Make, QUEUE_SECTION + acts, held);
    RefusedScript(rest);
  }

  /** Every call keeps the discipline, alone or from a callback. */
  lemma CallIsDisciplined(call: Call, onPoll: bool, rest: seq<Act>, held: seq<Lock>)
    requires held == if onPoll then [Running] else []
    requires Disciplined(rest, held)
    ensures Disciplined(Script(call, onPoll) + rest, held)
  {
    match call
    case Create(refused) =>
      if refused {
        RefusedThen(rest, held);
      } else {
        SectionThen(rest, held);
      }
    case Read(refill, found) => IpcSectionsThen(refill, found, rest, held);
    case Write(open) => OneSectionThen(open, rest, held);
    case EndOrClose(open) => OneSectionThen(open, rest, held);
    case Destroy(open) => DestroyIsDisciplined(open, onPoll, rest, held);
    case PollCreateOrDestroy => RunningThen(rest, held);
    case PollStartOrStop => assert Script(call, onPoll) + rest == rest;
    case QueueCall => SectionThen(rest, held);
  }

  lemma DestroyIsDisciplined(open: bool, onPoll: bool, rest: seq<Act>, held: seq<Lock>)
    requires held == if onPoll then [Running] else []
    requires Disciplined(rest, held)
    ensures Disciplined(Script(Destroy(open), onPoll) + rest, held)
  {
    var close := UnderIpcLock(if open then QUEUE_SECTION else []);
    var join := if onPoll then [] else [Join];
    JoinThen(onPoll, rest, held);
    RunningThen([SendClose] + (join + rest), held);
    OneSectionThen(open, [Take(Running), Drop(Running)] + ([SendClose] + (join + rest)), held);
    DestroyScript(close, join, rest);
  }

  lemma JoinThen(onPoll: bool, rest: seq<Act>, held: seq<Lock>)
    requires Disciplined(rest, held) && (!onPoll ==> held == [])
    ensures Disciplined([SendClose] + ((if onPoll then [] else [Join]) + rest), held)
  {
    if onPoll {
      assert [] + rest == rest;
      assert ([SendClose] + rest)[1..] == rest;
    } else {
      assert ([Join] + rest)[1..] == rest;
      assert ([SendClose] + ([Join] + rest))[1..] == [Join] + rest;
    }
  }

  lemma DestroyScript(close: seq<Act>, join: seq<Act>, rest: seq<Act>)
    ensures (close + [Take(Running), Drop(Running), SendClose] + join) + rest
            == close + ([Take(Running), Drop(Running)] + ([SendClose] + (join + rest)))
  {
    assert [Take(Running), Drop(Running), SendClose] == [Take(Running), Drop(Running)] + [SendClose];
  }

  lemma OneSectionThen(open: bool, rest: seq<Act>, held: seq<Lock>)
    requires Disciplined(rest, held) && QueueLock !in held && IpcLock !in held
    ensures Disciplined(UnderIpcLock(if open then QUEUE_SECTION else []) + rest, held)
  {
    IpcSectionsThen(open, false, rest, held);
    assert (if open then QUEUE_SECTION else []) + [] == if open then QUEUE_SECTION else [];
  }

  lemma {:induction false} CallsAreDisciplined(calls: seq<Call>, rest: seq<Act>)
    requires Disciplined(rest, [Running])
    ensures Disciplined(Scripts(calls) + rest, [Running])
  {
    if calls == [] {
      assert Scripts(calls) + rest == rest;
    } else {
      CallsAreDisciplined(calls[1..], rest);
      CallIsDisciplined(calls[0], true, Scripts(calls[1..]) + rest, [Running]);
      assert Scripts(calls) + rest == Script(calls[0], true) + (Scripts(calls[1..]) + rest);
    }
  }

  lemma ChecksThen(checks: Checks, rest: seq<Act>)
    requires Disciplined(rest, [Running])
    ensures Disciplined(ChecksScript(checks) + rest, [Running])
  {
    match checks
    case NoPoll => assert ChecksScript(checks) + rest == rest;
    case Checks(readable, writable) => IpcSectionsThen(readable, writable, rest, [Running]);
  }

  /** A dispatch keeps the discipline, whatever its callback calls. */
  lemma DispatchIsDisciplined(checks: Checks, calls: seq<Call>)
    ensures Disciplined(DispatchScript(checks, calls), [])
  {
    var end := [Drop(Running)];
    assert Disciplined(end, [Running]) by {
      DropThen(Running, [], []);
      assert end + [] == end && [] + [Running] == [Running];
    }
    CallsAreDisciplined(calls, end);
    ChecksThen(checks, Scripts(calls) + end);
    DispatchTail(ChecksScript(checks), Scripts(calls), end);
    assert [] + [Running] == [Running];
  }

  lemma DispatchTail(checked: seq<Act>, calls: seq<Act>, end: seq<Act>)
    ensures ([Take(Running)] + checked + calls + end)[1..] == checked + (calls + end)
  {
  }

  // Guards

  /** A call that uses the queue on behalf of an ipc. */
  predicate OnIpc(call: Call) {
    call.Read? || call.Write? || call.EndOrClose? || call.Destroy?
  }

  /** Each section of the queue is within one of the ipc's lock. */
  predicate Guarded(acts: seq<Act>, held: seq<Lock>) {
    if acts == [] then true
    else
      match acts[0]
      case Take(l) => (l.QueueLock? ==> IpcLock in held) && Guarded(acts[1..], held + [l])
      case Drop(_) => held != [] ==> Guarded(acts[1..], held[..|held| - 1])
      case _ => Guarded(acts[1..], held)
  }

  lemma TakeGuards(l: Lock, inner: seq<Act>, held: seq<Lock>)
    requires l.QueueLock? ==> IpcLock in held
    requires Guarded(inner, held + [l])
    ensures Guarded([Take(l)] + inner, held)
  {
    assert ([Take(l)] + inner)[1..] == inner;
  }

  lemma DropGuards(l: Lock, rest: seq<Act>, held: seq<Lock>)
    requires Guarded(rest, held)
    ensures Guarded([Drop(l)] + rest, held + [l])
  {
    assert ([Drop(l)] + rest)[1..] == rest;
    assert (held + [l])[..|held|] == held;
  }

  lemma SectionGuards(open: bool, rest: seq<Act>, held: seq<Lock>)
    requires Guarded(rest, held) && IpcLock in held
    ensures Guarded((if open then QUEUE_SECTION else []) + rest, held)
  {
    if open {
      DropGuards(QueueLock, rest, held);
      TakeGuards(QueueLock, [Drop(QueueLock)] + rest, held);
      assert QUEUE_SECTION + rest == [Take(QueueLock)] + ([Drop(QueueLock)] + rest);
    } else {
      assert [] + rest == rest;
    }
  }

  lemma SectionsGuard(first: bool, second: bool, rest: seq<Act>, held: seq<Lock>)
    requires Guarded(rest, held)
    ensures var a, b := if first then QUEUE_SECTION else [], if second then QUEUE_SECTION else [];
            Guarded(UnderIpcLock(a + b) + rest, held)
  {
    var a, b := if first then QUEUE_SECTION else [], if second then QUEUE_SECTION else [];
    var locked := held + [IpcLock];
    DropGuards(IpcLock, rest, held);
    SectionGuards(second, [Drop(IpcLock)] + rest, locked);
    SectionGuards(first, b + ([Drop(IpcLock)] + rest), locked);
    TakeGuards(IpcLock, a + (b + ([Drop(IpcLock)] + rest)), held);
    Unfolded(a, b, rest);
  }

  lemma Unfolded(a: seq<Act>, b: seq<Act>, rest: seq<Act>)
    ensures UnderIpcLock(a + b) + rest == [Take(IpcLock)] + (a + (b + ([Drop(IpcLock)] + rest)))
  {
  }

  lemma OthersGuard(acts: seq<Act>)
    requires acts == [] || acts == [Take(Running), Drop(Running), SendClose]
             || acts == [Take(Running), Drop(Running), SendClose, Join]
    ensures Guarded(acts, [])
  {
    if acts != [] {
      assert acts[1..][1..][1..] == [] || acts[1..][1..][1..] == [Join];
      assert Guarded(acts[1..][1..][1..], []);
      assert Guarded(acts[1..][1..], []);
      assert ([] + [Running])[..0] == [];
      assert Guarded(acts[1..], [] + [Running]);
    }
  }

  lemma CallGuards(call: Call)
    requires OnIpc(call)
    ensures Guarded(Script(call, false), [])
  {
    var tail := if call.Destroy? then [Take(Running), Drop(Running), SendClose, Join] else [];
    var first := if call.Read? then call.refill else call.open;
    var second := call.Read? && call.found;
    OthersGuard(tail);
    SectionsGuard(first, second, tail, []);
    var a, b := if first then QUEUE_SECTION else [], if second then QUEUE_SECTION else [];
    assert a + [] == a;
    assert Script(call, false) == UnderIpcLock(a + b) + tail;
  }

  // Spares

  /** How far a thread is with the spare of its refused create. */
  datatype Phase = Absent | Made | Held | Released | Closing

  /** The acts on a spare come in their order, and while its lock is held nothing else does. */
  predicate SparesInOrder(acts: seq<Act>, phase: Phase) {
    if acts == [] then phase.Absent?
    else if !acts[0].Spare? then !phase.Held? && SparesInOrder(acts[1..], phase)
    else
      match acts[0].act
      case Make => phase.Absent? && SparesInOrder(acts[1..], Made)
      case Hold => phase.Made? && SparesInOrder(acts[1..], Held)
      case Release => phase.Held? && SparesInOrder(acts[1..], Released)
      case Close => phase.Released? && SparesInOrder(acts[1..], Closing)
      case Await => phase.Closing? && SparesInOrder(acts[1..], Absent)
  }

  lemma {:induction false} SparesThen(acts: seq<Act>, phase: Phase, rest: seq<Act>)
    requires SparesInOrder(acts, phase) && SparesInOrder(rest, Absent)
    ensures SparesInOrder(acts + rest, phase)
  {
    if acts == [] {
      assert acts + rest == rest;
    } else {
      assert (acts + rest)[0] == acts[0] && (acts + rest)[1..] == acts[1..] + rest;
      SparesThen(acts[1..], Following(acts[0], phase), rest);
    }
  }

  function Following(act: Act, phase: Phase): Phase {
    match act
    case Spare(Make) => Made
    case Spare(Hold) => Held
    case Spare(Release) => Released
    case Spare(Close) => Closing
    case Spare(Await) => Absent
    case _ => phase
  }

  lemma {:induction false} NoneInOrder(acts: seq<Act>, phase: Phase, rest: seq<Act>)
    requires (forall act :: act in acts ==> !act.Spare?) && (acts != [] ==> !phase.Held?)
    requires SparesInOrder(rest, phase)
    ensures SparesInOrder(acts + rest, phase)
  {
    if acts == [] {
      assert acts + rest == rest;
    } else {
      assert (acts + rest)[0] == acts[0] && (acts + rest)[1..] == acts[1..] + rest;
      NoneInOrder(acts[1..], phase, rest);
    }
  }

  lemma CallSpares(call: Call, onPoll: bool)
    ensures SparesInOrder(Script(call, onPoll), Absent)
  {
    var acts := Script(call, onPoll);
    if call == Create(true) {
      assert DESTROY_SPARE[1..] == [Spare(Release), Spare(Close), Spare(Await)];
      assert DESTROY_SPARE[1..][1..] == [Spare(Close), Spare(Await)];
      assert DESTROY_SPARE[1..][1..][1..] == [Spare(Await)];
      assert DESTROY_SPARE[1..][1..][1..][1..] == [];
      assert SparesInOrder([Spare(Await)], Closing);
      assert SparesInOrder([Spare(Close), Spare(Await)], Released);
      assert SparesInOrder(DESTROY_SPARE, Made);
      NoneInOrder(QUEUE_SECTION, Made, DESTROY_SPARE);
      assert acts[1..] == QUEUE_SECTION + DESTROY_SPARE;
    } else {
      NoneInOrder(acts, Absent, []);
      assert acts + [] == acts;
    }
  }

  lemma {:induction false} CallsSpares(calls: seq<Call>)
    ensures SparesInOrder(Scripts(calls), Absent)
  {
    if calls != [] {
      CallSpares(calls[0], true);
      CallsSpares(calls[1..]);
      SparesThen(Script(calls[0], true), Absent, Scripts(calls[1..]));
    }
  }

  lemma DispatchSpares(checks: Checks, calls: seq<Call>)
    ensures SparesInOrder(DispatchScript(checks, calls), Absent)
  {
    var before := [Take(Running)] + ChecksScript(checks);
    var end := [Drop(Running)];
    CallsSpares(calls);
    assert end[1..] == [];
    assert SparesInOrder(end, Absent);
    SparesThen(Scripts(calls), Absent, end);
    NoneInOrder(before, Absent, Scripts(calls) + end);
    assert DispatchScript(checks, calls) == before + (Scripts(calls) + end);
  }

  // Threads

  /** `call` is what the thread last began, of which `rest` is left. */
  datatype Thread = Thread(rest: seq<Act>, held: seq<Lock>, spare: Phase, call: Call)

  /** A spare poll thread: whether it holds its `running`, and whether it has exited. It has no poll to call. */
  datatype Loop = Loop(locked: bool, exited: bool)

  /** The poll thread is `POLL`; `wake` and `closeSent` are its two handles. Spares go by the thread that made them. */
  datatype Threads = Threads(all: map<nat, Thread>, spares: map<nat, Loop>, wake: bool, closeSent: bool, exited: bool)

  const POLL: nat := 0

  datatype Step =
    | Begin(t: nat, call: Call)
    | Wake
    | Dispatch(checks: Checks, calls: seq<Call>)
    | Exit
    | Go(t: nat)
    | SpareWakes(t: nat)
    | SpareRests(t: nat)
    | SpareExits(t: nat)

  /** Whether thread `t` may take lock `l` now. */
  ghost predicate CanTake(s: Threads, t: nat, l: Lock) {
    forall u :: u in s.all && l in s.all[u].held ==> u == t && l.Running?
  }

  ghost predicate CanGo(s: Threads, t: nat) {
    && t in s.all && s.all[t].rest != []
    && match s.all[t].rest[0] {
         case Take(l) => CanTake(s, t, l)
         case Join => s.exited
         case Spare(Hold) => t in s.spares && !s.spares[t].locked
         case Spare(Await) => t in s.spares && s.spares[t].exited
         case _ => true
       }
  }

  ghost predicate Enabled(s: Threads, step: Step) {
    match step
    case Begin(t, _) => t != POLL && (t in s.all ==> s.all[t].rest == [])
    case Wake => true
    case Dispatch(_, _) => s.wake && !s.exited && POLL in s.all && s.all[POLL].rest == []
    case Exit => s.closeSent && !s.exited && POLL in s.all && s.all[POLL].rest == []
    case Go(t) => CanGo(s, t)
    case SpareWakes(t) =>
      t in s.spares && !s.spares[t].locked && !s.spares[t].exited && t in s.all && !s.all[t].spare.Held?
    case SpareRests(t) => t in s.spares && s.spares[t].locked
    case SpareExits(t) =>
      t in s.spares && !s.spares[t].locked && !s.spares[t].exited && t in s.all && s.all[t].spare.Closing?
  }

  /** The spare of thread `t` can go on. */
  ghost predicate SpareCanGo(s: Threads, t: nat) {
    Enabled(s, SpareRests(t)) || Enabled(s, SpareExits(t))
  }

  function Advance(thread: Thread): Thread
    requires thread.rest != []
  {
    var rest := thread.rest[1..];
    match thread.rest[0]
    case Take(l) => Thread(rest, thread.held + [l], thread.spare, thread.call)
    case Drop(l) =>
      Thread(rest, if thread.held == [] then [] else thread.held[..|thread.held| - 1], thread.spare, thread.call)
    case act => Thread(rest, thread.held, Following(act, thread.spare), thread.call)
  }

  ghost function Do(s: Threads, step: Step): Threads
    requires Enabled(s, step)
  {
    match step
    case Begin(t, call) => s.(all := s.all[t := Thread(Script(call, false), [], Absent, call)])
    case Wake => s.(wake := true)
    case Dispatch(checks, calls) =>
      s.(wake := false, all := s.all[POLL := Thread(DispatchScript(checks, calls), [], Absent, PollStartOrStop)])
    case Exit => s.(exited := true)
    case Go(t) =>
      s.(all := s.all[t := Advance(s.all[t])],
         spares := if s.all[t].rest[0] == Spare(Make) then s.spares[t := Loop(false, false)] else s.spares,
         closeSent := s.closeSent || s.all[t].rest[0].SendClose?)
    case SpareWakes(t) => s.(spares := s.spares[t := Loop(true, false)])
    case SpareRests(t) => s.(spares := s.spares[t := s.spares[t].(locked := false)])
    case SpareExits(t) => s.(spares := s.spares[t := Loop(false, true)])
  }

  function Init(): Threads {
    Threads(map[POLL := Thread([], [], Absent, PollStartOrStop)], map[], false, false, false)
  }

  // Invariants

  /** A join comes only right after the close that it waits for. */
  predicate JoinsFollowClose(acts: seq<Act>) {
    forall i :: 0 < i < |acts| && acts[i].Join? ==> acts[i - 1].SendClose?
  }

  ghost predicate ThreadOk(s: Threads, t: nat)
    requires t in s.all
  {
    && Disciplined(s.all[t].rest, s.all[t].held)
    && SparesInOrder(s.all[t].rest, s.all[t].spare)
    && (!s.all[t].spare.Absent? ==> t in s.spares)
    && (s.all[t].spare.Held? ==> !s.spares[t].locked)
    && JoinsFollowClose(s.all[t].rest)
    && (s.all[t].rest != [] && s.all[t].rest[0].Join? ==> s.closeSent)
    && (t == POLL ==> forall i :: 0 <= i < |s.all[t].rest| ==> !s.all[t].rest[i].Join?)
    && (t == POLL && s.exited ==> s.all[t].rest == [])
    && (OnIpc(s.all[t].call) ==> Guarded(s.all[t].rest, s.all[t].held))
    && (t != POLL && s.all[t].call.Destroy? ==> Join in s.all[t].rest || s.exited)
  }

  ghost predicate Exclusive(s: Threads) {
    forall t, u, l :: t in s.all && u in s.all && l in s.all[t].held && l in s.all[u].held ==> t == u
  }

  ghost predicate Inv(s: Threads) {
    && POLL in s.all
    && (forall t :: t in s.all ==> ThreadOk(s, t))
    && Exclusive(s)
  }

  lemma CallJoins(call: Call, onPoll: bool)
    ensures JoinsFollowClose(Script(call, onPoll))
    ensures Script(call, onPoll) != [] ==> !Script(call, onPoll)[0].Join?
    ensures onPoll ==> forall i :: 0 <= i < |Script(call, true)| ==> !Script(call, true)[i].Join?
  {
  }

  lemma DestroyJoins(call: Call)
    ensures call.Destroy? ==> Join in Script(call, false)
  {
    if call.Destroy? {
      assert Script(call, false)[|Script(call, false)| - 1] == Join;
    }
  }

  lemma {:induction false} CallsNeverJoin(calls: seq<Call>)
    ensures forall i :: 0 <= i < |Scripts(calls)| ==> !Scripts(calls)[i].Join?
  {
    if calls != [] {
      CallJoins(calls[0], true);
      CallsNeverJoin(calls[1..]);
    }
  }

  lemma DispatchNeverJoins(checks: Checks, calls: seq<Call>)
    ensures forall i :: 0 <= i < |DispatchScript(checks, calls)| ==> !DispatchScript(checks, calls)[i].Join?
  {
    CallsNeverJoin(calls);
  }

  lemma GoKeepsThread(s: Threads, t: nat)
    requires Inv(s) && CanGo(s, t)
    ensures ThreadOk(Do(s, Go(t)), t)
  {
    var acts := s.all[t].rest;
    var s' := Do(s, Go(t));
    assert s'.all[t].rest == acts[1..];
    forall i | 0 < i < |acts[1..]| && acts[1..][i].Join?
      ensures acts[1..][i - 1].SendClose?
    {
      assert acts[i + 1].Join? && acts[i].SendClose?;
    }
    if acts[1..] != [] && acts[1..][0].Join? {
      assert acts[1].Join? && acts[0].SendClose?;
    }
  }

  lemma GoKeepsExclusive(s: Threads, t: nat)
    requires Inv(s) && CanGo(s, t)
    ensures Exclusive(Do(s, Go(t)))
  {
    var s' := Do(s, Go(t));
    forall a, b, l | a in s'.all && b in s'.all && l in s'.all[a].held && l in s'.all[b].held
      ensures a == b
    {
      assert l in s.all[a].held || (a == t && s.all[t].rest[0] == Take(l));
      assert l in s.all[b].held || (b == t && s.all[t].rest[0] == Take(l));
    }
  }

  lemma BeginKeepsInv(s: Threads, t: nat, call: Call)
    requires Inv(s) && Enabled(s, Begin(t, call))
    ensures Inv(Do(s, Begin(t, call)))
  {
    CallIsDisciplined(call, false, [], []);
    assert Script(call, false) + [] == Script(call, false);
    CallSpares(call, false);
    CallJoins(call, false);
    if OnIpc(call) {
      CallGuards(call);
    }
    DestroyJoins(call);
    KeepsOthers(s, Do(s, Begin(t, call)), t);
  }

  lemma DispatchKeepsInv(s: Threads, checks: Checks, calls: seq<Call>)
    requires Inv(s) && Enabled(s, Dispatch(checks, calls))
    ensures Inv(Do(s, Dispatch(checks, calls)))
  {
    DispatchIsDisciplined(checks, calls);
    DispatchSpares(checks, calls);
    DispatchNeverJoins(checks, calls);
    KeepsOthers(s, Do(s, Dispatch(checks, calls)), POLL);
  }

  lemma StepKeepsInv(s: Threads, step: Step)
    requires Inv(s) && Enabled(s, step)
    ensures Inv(Do(s, step))
  {
    var s' := Do(s, step);
    match step
    case Begin(t, call) => BeginKeepsInv(s, t, call);
    case Dispatch(checks, calls) => DispatchKeepsInv(s, checks, calls);
    case Go(t) =>
      GoKeepsThread(s, t);
      GoKeepsExclusive(s, t);
      KeepsOthers(s, s', t);
    case Wake => assert forall t :: t in s.all ==> ThreadOk(s, t) && ThreadOk(s', t);
    case Exit => assert forall t :: t in s.all ==> ThreadOk(s, t) && ThreadOk(s', t);
    case SpareWakes(t) => SpareKeepsOthers(s, s', t);
    case SpareRests(t) => SpareKeepsOthers(s, s', t);
    case SpareExits(t) => SpareKeepsOthers(s, s', t);
  }

  lemma SpareKeepsOthers(s: Threads, s': Threads, t: nat)
    requires Inv(s) && t in s'.spares && s' == s.(spares := s.spares[t := s'.spares[t]])
    requires t in s.all && s.all[t].spare.Held? ==> !s'.spares[t].locked
    ensures Inv(s')
  {
    forall u | u in s'.all
      ensures ThreadOk(s', u)
    {
      assert ThreadOk(s, u);
    }
  }

  lemma KeepsOthers(s: Threads, s': Threads, t: nat)
    requires Inv(s) && t in s'.all && s'.all == s.all[t := s'.all[t]] && (s.closeSent ==> s'.closeSent) && s'.exited == s.exited
    requires forall u :: u in s.spares && u != t ==> u in s'.spares && s'.spares[u] == s.spares[u]
    requires ThreadOk(s', t)
    ensures POLL in s'.all && forall u :: u in s'.all ==> ThreadOk(s', u)
    ensures s'.all[t].held == [] ==> Exclusive(s')
  {
    forall u | u in s'.all
      ensures ThreadOk(s', u)
    {
      if u != t {
        assert ThreadOk(s, u);
      }
    }
  }

  /** Some thread can go on, be it a spare one. */
  ghost predicate SomeoneCanGo(s: Threads) {
    exists v :: CanGo(s, v) || SpareCanGo(s, v)
  }

  /** Whoever waits for a spare thread, that one can go on: it has but its own lock. */
  lemma SpareProgress(s: Threads, t: nat)
    requires Inv(s) && t in s.all && s.all[t].rest != [] && s.all[t].rest[0].Spare? && !CanGo(s, t)
    ensures SpareCanGo(s, t)
  {
    assert ThreadOk(s, t);
  }

  /** Whoever holds a lock, some thread can go on. */
  lemma HolderProgress(s: Threads, u: nat, l: Lock) returns (v: nat)
    requires Inv(s) && u in s.all && l in s.all[u].held
    ensures CanGo(s, v) || SpareCanGo(s, v)
    decreases 2 - l.Rank()
  {
    assert ThreadOk(s, u);
    v := u;
    if s.all[u].rest[0].Spare? && !CanGo(s, u) {
      SpareProgress(s, u);
    } else if !CanGo(s, u) {
      var next := s.all[u].rest[0].l;
      var w :| w in s.all && next in s.all[w].held && !(w == u && next.Running?);
      assert InOrder(next, s.all[u].held);
      assert next !in s.all[u].held || next.Running?;
      v := HolderProgress(s, w, next);
    }
  }

  /** If any thread has not finished its call, then some thread can go on, or the poll thread can exit. */
  lemma NoDeadlock(s: Threads, t: nat)
    requires Inv(s) && t in s.all && s.all[t].rest != []
    ensures SomeoneCanGo(s) || Enabled(s, Exit)
  {
    assert ThreadOk(s, t) && ThreadOk(s, POLL);
    if !CanGo(s, t) {
      var next := s.all[t].rest[0];
      if next.Take? {
        var w :| w in s.all && next.l in s.all[w].held && !(w == t && next.l.Running?);
        var v := HolderProgress(s, w, next.l);
      } else if next.Spare? {
        SpareProgress(s, t);
      } else if s.all[POLL].rest != [] {
        NoDeadlockOnPoll(s);
      }
    }
  }

  /** The poll thread never joins itself, so it is never what a join waits for in vain. */
  lemma NoDeadlockOnPoll(s: Threads)
    requires Inv(s) && s.all[POLL].rest != []
    ensures SomeoneCanGo(s)
  {
    assert ThreadOk(s, POLL);
    if s.all[POLL].rest[0].Spare? && !CanGo(s, POLL) {
      SpareProgress(s, POLL);
    } else if !CanGo(s, POLL) {
      var l := s.all[POLL].rest[0].l;
      var w :| w in s.all && l in s.all[w].held && !(w == POLL && l.Running?);
      var v := HolderProgress(s, w, l);
    }
  }

  ghost predicate Legal(s: Threads, steps: seq<Step>)
    decreases |steps|
  {
    steps == [] || (Enabled(s, steps[0]) && Legal(Do(s, steps[0]), steps[1..]))
  }

  ghost function After(s: Threads, steps: seq<Step>): Threads
    requires Legal(s, steps)
    decreases |steps|
  {
    if steps == [] then s else After(Do(s, steps[0]), steps[1..])
  }

  lemma {:induction false} RunKeepsInv(s: Threads, steps: seq<Step>)
    requires Inv(s) && Legal(s, steps)
    ensures Inv(After(s, steps))
    decreases |steps|
  {
    if steps != [] {
      StepKeepsInv(s, steps[0]);
      RunKeepsInv(Do(s, steps[0]), steps[1..]);
    }
  }

  /** In every interleaving of any number of threads, an unfinished call never leaves everyone stuck. */
  lemma DeadlockFree(steps: seq<Step>, t: nat)
    requires Legal(Init(), steps)
    requires var s := After(Init(), steps); t in s.all && s.all[t].rest != []
    ensures var s := After(Init(), steps); SomeoneCanGo(s) || Enabled(s, Exit)
  {
    RunKeepsInv(Init(), steps);
    NoDeadlock(After(Init(), steps), t);
  }

  /** When a destroy by another thread is over, the poll thread has exited, with no callback left and no lock held. */
  lemma DestroyWaits(steps: seq<Step>, t: nat)
    requires Legal(Init(), steps)
    ensures var s := After(Init(), steps);
            t in s.all && t != POLL && s.all[t].call.Destroy? && s.all[t].rest == [] ==>
              s.exited && POLL in s.all && s.all[POLL].rest == [] && s.all[POLL].held == []
  {
    RunKeepsInv(Init(), steps);
    var s := After(Init(), steps);
    assert ThreadOk(s, POLL) && (t in s.all ==> ThreadOk(s, t));
  }

  /** No two threads hold the same lock, and a host call enters the queue only with the ipc's lock held. */
  lemma SectionsExclude(steps: seq<Step>, t: nat, u: nat, l: Lock)
    requires Legal(Init(), steps)
    ensures var s := After(Init(), steps);
            && (t in s.all && u in s.all && l in s.all[t].held && l in s.all[u].held ==> t == u)
            && (t in s.all && OnIpc(s.all[t].call) && s.all[t].rest != [] && s.all[t].rest[0] == Take(QueueLock) ==>
                  IpcLock in s.all[t].held)
  {
    RunKeepsInv(Init(), steps);
    var s := After(Init(), steps);
    assert t in s.all ==> ThreadOk(s, t);
  }

  /** Who holds the queue's lock can always go on, so a signal callback, which runs under it, waits for nobody. */
  lemma QueueLockIsLast(steps: seq<Step>, t: nat)
    requires Legal(Init(), steps)
    ensures var s := After(Init(), steps);
            t in s.all && QueueLock in s.all[t].held ==> CanGo(s, t)
  {
    RunKeepsInv(Init(), steps);
    var s := After(Init(), steps);
    if t in s.all && QueueLock in s.all[t].held {
      assert ThreadOk(s, t);
      if s.all[t].rest[0].Take? {
        assert InOrder(s.all[t].rest[0].l, s.all[t].held);
        assert s.all[t].rest[0].l.Running? && Running in s.all[t].held;
      }
    }
  }
}
