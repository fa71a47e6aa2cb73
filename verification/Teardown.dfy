/** The count of running worklets and the teardown that waits for it to reach zero. */
module Teardown {

  /** A worklet from its admission by start to its stop. */
  datatype Worker =
    | Admitted     // Counted; its thread is about to be created
    | NotCreated   // Thread creation failed
    | Live
    | ExitReturned // Its exit callback has returned
    | Stopped      // No longer counted

  datatype Waiter = NotCalled | Asleep | Passed

  /** `signalled` says that the condition was signalled while the waiter slept. */
  datatype Process = Process(
    running: int,
    tornDown: bool,
    workers: map<nat, Worker>,
    waiter: Waiter,
    signalled: bool,
    returned: set<nat>, // Worklets whose exit callback has returned
    failed: set<nat>    // Worklets whose thread could not be created
  )

  function Init(): Process {
    Process(0, false, map[], NotCalled, false, {}, {})
  }

  datatype Step =
    | Start(i: nat)
    | CreateThread(i: nat, ok: bool)
    | Exit(i: nat)
    | OnStopped(i: nat)
    | Teardown
    | WakeUp             // By the signal, or by none

  predicate Enabled(s: Process, step: Step) {
    match step
    case Start(i) => i !in s.workers
    case CreateThread(i, _) => i in s.workers && s.workers[i].Admitted?
    case Exit(i) => i in s.workers && s.workers[i].Live?
    case OnStopped(i) => i in s.workers && (s.workers[i].NotCreated? || s.workers[i].ExitReturned?)
    case Teardown => s.waiter.NotCalled?
    case WakeUp => s.waiter.Asleep?
  }

  /** Tests the count with the lock held, and sleeps if it is not zero. */
  function Test(s: Process): Process {
    if s.running > 0 then s.(waiter := Asleep) else s.(waiter := Passed)
  }

  function Do(s: Process, step: Step): Process {
    match step
    case Start(i) =>
      if s.tornDown then s else s.(running := s.running + 1, workers := s.workers[i := Admitted])
    case CreateThread(i, ok) =>
      if ok then s.(workers := s.workers[i := Live])
      else s.(workers := s.workers[i := NotCreated], failed := s.failed + {i})
    case Exit(i) => s.(workers := s.workers[i := ExitReturned], returned := s.returned + {i})
    case OnStopped(i) =>
      s.(running := s.running - 1, workers := s.workers[i := Stopped],
         signalled := s.signalled || (s.running - 1 == 0 && s.waiter.Asleep?))
    case Teardown => Test(s.(tornDown := true))
    case WakeUp => Test(s.(signalled := false))
  }

  ghost function Counted(s: Process): set<nat> {
    set i | i in s.workers && !s.workers[i].Stopped?
  }

  /** A worklet stops only after its exit callback has returned, or else it never had a thread. */
  ghost predicate StopsLast(s: Process) {
    forall i :: i in s.workers ==>
                  && (s.workers[i].NotCreated? <==> i in s.failed && !s.workers[i].Stopped?)
                  && (s.workers[i].ExitReturned? <==> i in s.returned && !s.workers[i].Stopped?)
                  && (s.workers[i].Stopped? ==> (i in s.returned <==> i !in s.failed))
  }

  ghost predicate Inv(s: Process) {
    && StopsLast(s)
    && (forall i :: i in s.returned + s.failed ==> i in s.workers)
    && s.running == |Counted(s)|
    && (s.tornDown <==> !s.waiter.NotCalled?)
    && (s.waiter.Passed? ==> s.running == 0)
    && (s.signalled <==> s.waiter.Asleep? && s.running == 0)
  }

  lemma StartKeepsInv(s: Process, i: nat)
    requires Inv(s) && Enabled(s, Start(i))
    ensures Inv(Do(s, Start(i)))
  {
    if !s.tornDown {
      assert Counted(Do(s, Start(i))) == Counted(s) + {i};
    }
  }

  lemma OnStoppedKeepsInv(s: Process, i: nat)
    requires Inv(s) && Enabled(s, OnStopped(i))
    ensures Inv(Do(s, OnStopped(i)))
  {
    assert Counted(Do(s, OnStopped(i))) == Counted(s) - {i} && i in Counted(s);
  }

  lemma StepKeepsInv(s: Process, step: Step)
    requires Inv(s) && Enabled(s, step)
    ensures Inv(Do(s, step))
  {
    match step
    case Start(i) => StartKeepsInv(s, i);
    case OnStopped(i) => OnStoppedKeepsInv(s, i);
    case _ => assert Counted(Do(s, step)) == Counted(s);
  }

  ghost predicate Legal(s: Process, steps: seq<Step>)
    decreases |steps|
  {
    steps == [] || (Enabled(s, steps[0]) && Legal(Do(s, steps[0]), steps[1..]))
  }

  function After(s: Process, steps: seq<Step>): Process
    decreases |steps|
  {
    if steps == [] then s else After(Do(s, steps[0]), steps[1..])
  }

  lemma {:induction false} RunKeepsInv(s: Process, steps: seq<Step>)
    requires Inv(s) && Legal(s, steps)
    ensures Inv(After(s, steps))
    decreases |steps|
  {
    if steps != [] {
      StepKeepsInv(s, steps[0]);
      RunKeepsInv(Do(s, steps[0]), steps[1..]);
    }
  }

  lemma InitInv()
    ensures Inv(Init())
  {
    assert Counted(Init()) == {};
  }

  /** For any number of worklets, the count is that of the starts admitted and not yet stopped. */
  lemma CountIsExact(steps: seq<Step>)
    requires Legal(Init(), steps)
    ensures var s := After(Init(), steps); s.running == |Counted(s)|
  {
    InitInv();
    RunKeepsInv(Init(), steps);
  }

  /**
   Teardown passes only once every admitted worklet has stopped, and each of them
   either returned from its exit callback or never had a thread.
   */
  lemma TeardownWaitsForAll(steps: seq<Step>, i: nat)
    requires Legal(Init(), steps)
    ensures var s := After(Init(), steps);
            s.waiter.Passed? && i in s.workers ==>
              s.workers[i].Stopped? && (i in s.returned <==> i !in s.failed)
  {
    InitInv();
    RunKeepsInv(Init(), steps);
    var s := After(Init(), steps);
    assert i in s.workers ==> s.workers[i].Stopped? || i in Counted(s);
  }

  lemma {:induction false} TornDownStays(s: Process, steps: seq<Step>)
    requires Inv(s) && Legal(s, steps)
    ensures Inv(After(s, steps))
    ensures s.tornDown || Teardown in steps ==> After(s, steps).tornDown
    ensures s.tornDown ==> After(s, steps).workers.Keys == s.workers.Keys
    decreases |steps|
  {
    if steps != [] {
      StepKeepsInv(s, steps[0]);
      assert s.tornDown ==> Do(s, steps[0]).workers.Keys == s.workers.Keys;
      TornDownStays(Do(s, steps[0]), steps[1..]);
    }
  }

  /** Once a run contains a call of teardown, no continuation admits a start. */
  lemma NoneAdmittedAfterTeardown(steps: seq<Step>, more: seq<Step>)
    requires Legal(Init(), steps) && Teardown in steps && Legal(After(Init(), steps), more)
    ensures After(After(Init(), steps), more).workers.Keys == After(Init(), steps).workers.Keys
  {
    InitInv();
    TornDownStays(Init(), steps);
    TornDownStays(After(Init(), steps), more);
  }

  /** A start before that is admitted, and counted. */
  lemma StartsAreAdmitted(steps: seq<Step>, i: nat)
    requires Legal(Init(), steps) && Teardown !in steps && Enabled(After(Init(), steps), Start(i))
    ensures var s := After(Init(), steps);
            var t := Do(s, Start(i));
            i in t.workers && t.workers[i].Admitted? && t.running == s.running + 1
  {
    NotTornDown(Init(), steps);
  }

  lemma {:induction false} NotTornDown(s: Process, steps: seq<Step>)
    requires Legal(s, steps) && Teardown !in steps && !s.tornDown
    ensures !After(s, steps).tornDown
    decreases |steps|
  {
    if steps != [] {
      NotTornDown(Do(s, steps[0]), steps[1..]);
    }
  }

  /** A sleeping teardown is never left behind: it was signalled, or some worklet has yet to stop. */
  lemma WaiterIsNeverStranded(steps: seq<Step>)
    requires Legal(Init(), steps)
    ensures var s := After(Init(), steps);
            s.waiter.Asleep? ==>
              || (s.signalled && s.running == 0 && Do(s, WakeUp).waiter.Passed?)
              || (!s.signalled && s.running > 0 && exists i :: i in s.workers && !s.workers[i].Stopped?)
  {
    InitInv();
    RunKeepsInv(Init(), steps);
    var s := After(Init(), steps);
    if s.waiter.Asleep? && s.running > 0 {
      var i :| i in Counted(s);
    }
  }

  // Passing

  lemma Prefix(s: Process, step: Step, rest: seq<Step>) returns (steps: seq<Step>)
    requires Enabled(s, step) && Legal(Do(s, step), rest)
    ensures Legal(s, steps) && After(s, steps) == After(Do(s, step), rest)
  {
    steps := [step] + rest;
    assert steps[1..] == rest;
  }

  function WorkerLeft(w: Worker): nat {
    match w
    case Admitted => 3
    case Live => 2
    case NotCreated => 1
    case ExitReturned => 1
    case Stopped => 0
  }

  /** The next step of a worklet whose thread is created. */
  function WorkerNext(w: Worker, i: nat): Step {
    match w
    case Admitted => CreateThread(i, true)
    case Live => Exit(i)
    case _ => OnStopped(i)
  }

  lemma WorkerMoves(s: Process, i: nat)
    requires Inv(s) && i in s.workers && !s.workers[i].Stopped?
    ensures Enabled(s, WorkerNext(s.workers[i], i))
    ensures var t := Do(s, WorkerNext(s.workers[i], i));
            && t.waiter == s.waiter && i in t.workers
            && WorkerLeft(t.workers[i]) < WorkerLeft(s.workers[i])
            && Counted(t) - {i} == Counted(s) - {i}
  {
  }

  lemma {:induction false} WorkerCanStop(s: Process, i: nat) returns (steps: seq<Step>)
    requires Inv(s) && i in s.workers
    ensures Legal(s, steps) && Inv(After(s, steps))
    ensures After(s, steps).waiter == s.waiter && Counted(After(s, steps)) == Counted(s) - {i}
    decreases WorkerLeft(s.workers[i])
  {
    if s.workers[i].Stopped? {
      steps := [];
      assert Counted(s) == Counted(s) - {i};
    } else {
      var step := WorkerNext(s.workers[i], i);
      WorkerMoves(s, i);
      StepKeepsInv(s, step);
      var rest := WorkerCanStop(Do(s, step), i);
      steps := Prefix(s, step, rest);
    }
  }

  lemma {:induction false} Join(s: Process, first: seq<Step>, second: seq<Step>) returns (steps: seq<Step>)
    requires Legal(s, first) && Legal(After(s, first), second)
    ensures Legal(s, steps) && After(s, steps) == After(After(s, first), second)
    decreases |first|
  {
    if first == [] {
      steps := second;
    } else {
      var rest := Join(Do(s, first[0]), first[1..], second);
      steps := Prefix(s, first[0], rest);
    }
  }

  lemma {:induction false} AllCanStop(s: Process) returns (steps: seq<Step>)
    requires Inv(s)
    ensures Legal(s, steps) && Inv(After(s, steps))
    ensures After(s, steps).waiter == s.waiter && Counted(After(s, steps)) == {}
    decreases Counted(s)
  {
    if Counted(s) == {} {
      steps := [];
    } else {
      var i :| i in Counted(s);
      var first := WorkerCanStop(s, i);
      var rest := AllCanStop(After(s, first));
      steps := Join(s, first, rest);
    }
  }

  /** From every reachable state all worklets can stop, whereupon a sleeping teardown passes at its next wake. */
  lemma TeardownCanPass(before: seq<Step>) returns (steps: seq<Step>)
    requires Legal(Init(), before) && After(Init(), before).waiter.Asleep?
    ensures var s := After(Init(), before);
            Legal(s, steps) && After(s, steps).waiter.Asleep? && Do(After(s, steps), WakeUp).waiter.Passed?
  {
    InitInv();
    RunKeepsInv(Init(), before);
    steps := AllCanStop(After(Init(), before));
  }

  // The counter and its flag as the source keeps them, each method being one section of their lock

  class Running {
    var running: int
    var tornDown: bool
    ghost var value: Process

    ghost predicate Valid()
      reads this
    {
      running == value.running && tornDown == value.tornDown && Inv(value)
    }

    constructor ()
      ensures Valid() && value == Init()
    {
      running, tornDown, value := 0, false, Init();
      new;
      InitInv();
    }

    /** `admitted` is false once teardown was called. */
    method Admit(i: nat) returns (admitted: bool)
      requires Valid() && Enabled(value, Step.Start(i))
      modifies this
      ensures Valid() && value == Do(old(value), Step.Start(i))
      ensures admitted == (i in value.workers) == !tornDown
    {
      StepKeepsInv(value, Step.Start(i));
      admitted := !tornDown;
      if admitted {
        running := running + 1;
      }
      value := Do(value, Step.Start(i));
    }

    /** `signalled` tells a sleeping teardown that the last worklet has stopped. */
    method OnStopped(i: nat) returns (signalled: bool)
      requires Valid() && Enabled(value, Step.OnStopped(i))
      modifies this
      ensures Valid() && value == Do(old(value), Step.OnStopped(i))
      ensures signalled == (Counted(value) == {})
    {
      StepKeepsInv(value, Step.OnStopped(i));
      running := running - 1;
      value := Do(value, Step.OnStopped(i));
      signalled := running == 0;
    }

    /** The first test of teardown, and each one after a wake; it sleeps unless `passed`. */
    method Test() returns (passed: bool)
      requires Valid() && !value.waiter.Passed?
      modifies this
      ensures Valid() && tornDown
      ensures value == Do(old(value), if old(value).waiter.NotCalled? then Step.Teardown else WakeUp)
      ensures passed == value.waiter.Passed? == (Counted(value) == {})
    {
      ghost var step := if value.waiter.NotCalled? then Step.Teardown else WakeUp;
      StepKeepsInv(value, step);
      tornDown := true;
      value := Do(value, step);
      passed := running <= 0;
    }
  }
}
