/** From every reachable state of a worklet's life there is a way to its end, on which everything is released. */
module Finishing {
  import opened Options
  import opened Lifecycle

  ghost predicate AllDone(s: Life) {
    s.host.HostDone? && s.ipcs == map[] && (s.worker.NotCreated? || s.worker.ThreadDone?)
  }

  lemma Prefix(s: Life, step: Step, rest: seq<Step>) returns (steps: seq<Step>)
    requires Enabled(s, step) && Legal(Do(s, step), rest)
    ensures Legal(s, steps) && After(s, steps) == After(Do(s, step), rest)
  {
    steps := [step] + rest;
    assert steps[1..] == rest;
  }

  lemma {:induction false} Join(s: Life, first: seq<Step>, second: seq<Step>) returns (steps: seq<Step>)
    requires Legal(s, first) && Legal(After(s, first), second)
    ensures Legal(s, steps) && After(s, steps) == After(After(s, first), second)
    decreases |first|
  {
    if first == [] {
      steps := second;
    } else {
      var rest := Join(Do(s, first[0]), first[1..], second);
      steps := Prefix(s, first[0], rest);
    }
  }

  /** The calls in progress can all return. */
  lemma {:induction false} CallsCanReturn(s: Life) returns (steps: seq<Step>)
    requires Inv(s)
    ensures Legal(s, steps)
    ensures var t := After(s, steps);
            && Inv(t) && t.callers == 0 && t.host == s.host && t.worker == s.worker && t.ipcs == s.ipcs
    decreases s.callers, !s.locked
  {
    if s.callers == 0 {
      steps := [];
    } else {
      var step := if s.locked then CallBody else CallLock;
      StepKeepsInv(s, step);
      CallsLeaveWorklet(s, step);
      var rest := CallsCanReturn(Do(s, step));
      steps := Prefix(s, step, rest);
    }
  }

  /** What is left to do for an ipc, and its next step. */
  function IpcLeft(pc: IpcPc): nat {
    match pc
    case Creating => 4
    case Opened => 3
    case FreesQueue => 2
    case ShutPort => 1
    case Refused => 1
  }

  function IpcNext(pc: IpcPc, i: nat): Step {
    match pc
    case Creating => IpcOpen(i)
    case Opened => IpcClose(i)
    case FreesQueue => IpcFreeQueue(i)
    case ShutPort => IpcRelease(i)
    case Refused => IpcRelease(i)
  }

  lemma IpcMoves(s: Life, i: nat)
    requires i in s.ipcs
    ensures var step := IpcNext(s.ipcs[i], i);
            && Enabled(s, step) && OfIpc(step)
            && Do(s, step).ipcs - {i} == s.ipcs - {i}
            && (i in Do(s, step).ipcs ==> IpcLeft(Do(s, step).ipcs[i]) < IpcLeft(s.ipcs[i]))
            && (s.ipcs[i].Refused? || s.ipcs[i].ShutPort? <==> i !in Do(s, step).ipcs)
  {
  }

  /** Each ipc can be closed and released. */
  lemma {:induction false} IpcCanEnd(s: Life, i: nat) returns (steps: seq<Step>)
    requires Inv(s) && i in s.ipcs
    ensures Legal(s, steps)
    ensures var t := After(s, steps);
            && Inv(t) && t.callers == s.callers && t.host == s.host && t.worker == s.worker && t.ipcs == s.ipcs - {i}
    decreases IpcLeft(s.ipcs[i])
  {
    var step := IpcNext(s.ipcs[i], i);
    IpcMoves(s, i);
    StepKeepsInv(s, step);
    IpcsLeaveWorklet(s, step);
    var t := Do(s, step);
    var rest := [];
    if i in t.ipcs {
      rest := IpcCanEnd(t, i);
    } else {
      assert t.ipcs == t.ipcs - {i};
    }
    steps := Prefix(s, step, rest);
  }

  lemma {:induction false} IpcsCanEnd(s: Life) returns (steps: seq<Step>)
    requires Inv(s)
    ensures Legal(s, steps)
    ensures var t := After(s, steps);
            Inv(t) && t.callers == s.callers && t.host == s.host && t.worker == s.worker && t.ipcs == map[]
    decreases |s.ipcs|
  {
    if s.ipcs == map[] {
      steps := [];
    } else {
      var i :| i in s.ipcs;
      var first := IpcCanEnd(s, i);
      assert (s.ipcs - {i}).Keys == s.ipcs.Keys - {i};
      var rest := IpcsCanEnd(After(s, first));
      steps := Join(s, first, rest);
    }
  }

  function HostLeft(at: HostPc): nat {
    match at
    case AtBarrier => 10
    case PastBarrier => 9
    case Between => 8
    case Terminating => 7
    case HoldingLock => 6
    case Posting => 5
    case FreeingState => 5
    case ClosingUv => 4
    case LettingGo => 3
    case HostFreesQueue => 2
    case FreeingWorklet => 1
    case HostDone => 0
  }

  /** The next step of the host, or of the worklet thread where the host waits for it or is done. */
  function ThreadsNext(s: Life): Step {
    if s.host.Between? then Destroy
    else if s.host.AtBarrier? && s.worker.Ready? then Barrier
    else if s.host.AtBarrier? || s.host.HostDone? then ThreadNext
    else HostNext
  }

  lemma ThreadsMove(s: Life)
    requires Inv(s) && s.callers == 0 && s.ipcs == map[] && !AllDone(s)
    ensures var step := ThreadsNext(s);
            && Enabled(s, step) && Do(s, step).callers == 0 && Do(s, step).ipcs == map[]
            && HostLeft(Do(s, step).host) + 16 - Do(s, step).worker.Rank() < HostLeft(s.host) + 16 - s.worker.Rank()
            && (s.Started() ==> Do(s, step).Started())
  {
    if ThreadsNext(s).HostNext? {
      HostMoves(s);
    } else if ThreadsNext(s).ThreadNext? {
      ThreadMoves(s);
    }
  }

  lemma HostMoves(s: Life)
    requires Inv(s) && !s.host.Between? && !s.host.AtBarrier? && !s.host.HostDone?
    ensures Enabled(s, HostNext)
    ensures var t := DoHost(s);
            HostLeft(t.host) < HostLeft(s.host) && t.worker == s.worker && t.callers == s.callers && t.ipcs == s.ipcs
  {
  }

  lemma ThreadMoves(s: Life)
    requires Inv(s) && s.callers == 0 && (s.host.AtBarrier? || s.host.HostDone?) && !s.worker.Ready?
    requires s.Started() && !s.worker.ThreadDone?
    ensures ThreadGoes(s)
    ensures var t := DoThread(s);
            && t.worker.Rank() > s.worker.Rank() && t.host == s.host && t.callers == s.callers && t.ipcs == s.ipcs
  {
  }

  lemma {:induction false} ThreadsCanEnd(s: Life) returns (steps: seq<Step>)
    requires Inv(s) && s.callers == 0 && s.ipcs == map[]
    ensures Legal(s, steps)
    ensures Inv(After(s, steps)) && AllDone(After(s, steps)) && (s.Started() ==> After(s, steps).Started())
    decreases HostLeft(s.host) + 16 - s.worker.Rank()
  {
    if AllDone(s) {
      steps := [];
    } else {
      var step := ThreadsNext(s);
      ThreadsMove(s);
      StepKeepsInv(s, step);
      var rest := ThreadsCanEnd(Do(s, step));
      steps := Prefix(s, step, rest);
    }
  }

  /**
   From every reachable state all calls, ipcs and threads can come to their end,
   whereupon everything was released once, and the exit callback of a started
   worklet was called once.
   */
  lemma EveryoneCanFinish(before: seq<Step>) returns (steps: seq<Step>)
    requires Legal(Init(), before)
    ensures var s := After(Init(), before);
            && Legal(s, steps) && AllDone(After(s, steps))
            && (s.Started() ==> After(s, steps).counts == Counts(1, 1, 1, 1))
            && After(s, steps).counts.(exits := 1) == Counts(1, 1, 1, 1)
  {
    InitInv();
    RunKeepsInv(Init(), before);
    var s := After(Init(), before);
    steps := CallsCanReturn(s);
    var more := IpcsCanEnd(After(s, steps));
    steps := Join(s, steps, more);
    more := ThreadsCanEnd(After(s, steps));
    steps := Join(s, steps, more);
    CountsAtTheEnd(After(s, steps));
  }

  /** A start whose thread is created has its worklet started, and so, by the above, its exit callback called. */
  lemma StartStarts(s: Life, created: bool)
    requires Inv(s) && Enabled(s, Step.Start(created))
    ensures Do(s, Step.Start(created)).Started() <==> created
  {
  }
}
