/** The background task that a lingering worklet holds on iOS, with expiration handlers racing its owner. */
module Suspension {
  import opened Options

  /** A start or an end, which the state's lock lets run one at a time. */
  datatype Op =
    | NoOp
    | Begun(begun: Option<nat>) // Start was given a task, or none, and is about to store that
    | Ending(t: nat)            // Task `t` was exchanged out, and is about to be ended
  {
    /** Task `t` is what the start or the end has in hand. */
    predicate Has(t: nat) {
      this == Begun(Some(t)) || this == Ending(t)
    }
  }

  /** The expiration handler of a task, once it fires; `won` is what its compare-exchange returns, which it ignores. */
  datatype Handler = Fired | Swapped(won: bool) | Finished(won: bool)

  datatype Suspension = Suspension(
    stored: Option<nat>,         // The task's identifier, None when invalid
    next: nat,                   // Tasks below this have begun
    op: Op,
    handlers: map<nat, Handler>,
    bare: bool,                  // The worklet can still be suspended
    ends: multiset<nat>          // How often each task was ended
  )

  function Init(): Suspension {
    Suspension(None, 0, NoOp, map[], true, multiset{})
  }

  datatype Step =
    | Start(granted: bool) // The system may refuse to begin a task
    | Store
    | End
    | Clear          // The worklet thread's last end, which also clears `bare`
    | EndTaken
    | Fire(t: nat)
    | CompareSwap(t: nat)
    | EndExpired(t: nat)

  predicate Enabled(s: Suspension, step: Step) {
    match step
    case Start(_) => s.op.NoOp? && s.bare
    case Store => s.op.Begun?
    case End => s.op.NoOp?
    case Clear => s.op.NoOp? && s.bare
    case EndTaken => s.op.Ending?
    case Fire(t) => t < s.next && t !in s.ends && t !in s.handlers
    case CompareSwap(t) => t in s.handlers && s.handlers[t].Fired?
    case EndExpired(t) => t in s.handlers && s.handlers[t].Swapped?
  }

  /** Swaps `with` for the stored task, leaving the previous one to be ended. */
  function Exchange(s: Suspension, with: Option<nat>): Suspension {
    s.(stored := with, op := if s.stored.Some? then Ending(s.stored.value) else NoOp)
  }

  function Do(s: Suspension, step: Step): Suspension {
    match step
    case Start(granted) =>
      if granted then s.(next := s.next + 1, op := Begun(Some(s.next))) else s.(op := Begun(None))
    case Store => if s.op.Begun? then Exchange(s, s.op.begun) else s
    case End => Exchange(s, None)
    case Clear => Exchange(s.(bare := false), None)
    case EndTaken => if s.op.Ending? then s.(op := NoOp, ends := s.ends + multiset{s.op.t}) else s
    case Fire(t) => s.(handlers := s.handlers[t := Fired])
    case CompareSwap(t) =>
      var won := s.stored == Some(t);
      s.(stored := if won then None else s.stored, handlers := s.handlers[t := Swapped(won)])
    case EndExpired(t) =>
      var won := t in s.handlers && s.handlers[t].Swapped? && s.handlers[t].won;
      s.(handlers := s.handlers[t := Finished(won)], ends := s.ends + multiset{t})
  }

  /** Some start, end or handler has task `t` in hand. */
  predicate InHand(s: Suspension, t: nat) {
    || s.op.Has(t)
    || (t in s.handlers && !s.handlers[t].Finished?)
  }

  /** The handler of task `t` has ended it. */
  predicate Expired(s: Suspension, t: nat) {
    t in s.handlers && s.handlers[t].Finished?
  }

  /** The handler's compare-exchange took the task out of the store, so that nobody else will end it. */
  predicate Won(s: Suspension, t: nat) {
    t in s.handlers && !s.handlers[t].Fired? && s.handlers[t].won
  }

  /** The handler's compare-exchange found another task stored, or none. */
  predicate Lost(s: Suspension, t: nat) {
    t in s.handlers && !s.handlers[t].Fired? && !s.handlers[t].won
  }

  /** A start or an end will store task `t` or end it, or an exchange will find it stored. */
  predicate Owned(s: Suspension, t: nat) {
    s.stored == Some(t) || s.op.Has(t)
  }

  /** Where task `t` is, and how often exactly it was ended by then. */
  ghost predicate TaskOk(s: Suspension, t: nat) {
    && (t >= s.next ==> !Owned(s, t) && t !in s.handlers && t !in s.ends)
    && (s.stored == Some(t) ==> !s.op.Has(t))
    && (Won(s, t) ==> !Owned(s, t))
    && (t < s.next ==>
          s.ends[t] == (if Owned(s, t) || Won(s, t) then 0 else 1) + (if Expired(s, t) then 1 else 0))
  }

  ghost predicate Inv(s: Suspension) {
    && (forall t :: TaskOk(s, t))
    && (!s.bare ==> s.stored.None? && !s.op.Begun?)
  }

  lemma StepKeepsTask(s: Suspension, step: Step, t: nat)
    requires Inv(s) && Enabled(s, step)
    ensures TaskOk(Do(s, step), t)
  {
    assert TaskOk(s, t);
    match step
    case Start(_) => assert TaskOk(s, s.next);
    case Store => assert s.op.begun.Some? ==> TaskOk(s, s.op.begun.value);
    case EndTaken => assert TaskOk(s, s.op.t);
    case _ =>
  }

  lemma StepKeepsInv(s: Suspension, step: Step)
    requires Inv(s) && Enabled(s, step)
    ensures Inv(Do(s, step))
  {
    forall t
      ensures TaskOk(Do(s, step), t)
    {
      StepKeepsTask(s, step, t);
    }
  }

  ghost predicate Legal(s: Suspension, steps: seq<Step>)
    decreases |steps|
  {
    steps == [] || (Enabled(s, steps[0]) && Legal(Do(s, steps[0]), steps[1..]))
  }

  function After(s: Suspension, steps: seq<Step>): Suspension
    decreases |steps|
  {
    if steps == [] then s else After(Do(s, steps[0]), steps[1..])
  }

  lemma {:induction false} RunKeepsInv(s: Suspension, steps: seq<Step>)
    requires Inv(s) && Legal(s, steps)
    ensures Inv(After(s, steps))
    decreases |steps|
  {
    if steps != [] {
      StepKeepsInv(s, steps[0]);
      RunKeepsInv(Do(s, steps[0]), steps[1..]);
    }
  }

  /** In every interleaving a task that was begun and not ended is stored, or in some thread's hands. */
  lemma NoTaskLeaks(steps: seq<Step>, t: nat)
    requires Legal(Init(), steps)
    ensures var s := After(Init(), steps);
            t < s.next && t !in s.ends ==> s.stored == Some(t) || InHand(s, t)
  {
    RunKeepsInv(Init(), steps);
    assert TaskOk(After(Init(), steps), t);
  }

  /** A clear stays: no start can begin a task, in any continuation. */
  lemma {:induction false} ClearStays(s: Suspension, steps: seq<Step>)
    requires Inv(s) && Legal(s, steps)
    ensures Inv(After(s, steps))
    ensures !s.bare || Clear in steps ==> !After(s, steps).bare
    ensures !s.bare ==> After(s, steps).next == s.next
    decreases |steps|
  {
    if steps != [] {
      StepKeepsInv(s, steps[0]);
      ClearStays(Do(s, steps[0]), steps[1..]);
    }
  }

  /**
   Once a run contains the worklet's clear of `bare`, then in any continuation no
   task can begin and none has, none is stored, and those not in hand were ended.
   */
  lemma NoTaskAfterClear(steps: seq<Step>, more: seq<Step>)
    requires Legal(Init(), steps) && Clear in steps && Legal(After(Init(), steps), more)
    ensures var s, t := After(Init(), steps), After(After(Init(), steps), more);
            && (forall granted :: !Enabled(t, Start(granted)))
            && t.stored.None? && t.next == s.next
            && (forall task: nat :: task < t.next && !InHand(t, task) ==> task in t.ends)
  {
    ClearStays(Init(), steps);
    ClearStays(After(Init(), steps), more);
    var t := After(After(Init(), steps), more);
    forall task: nat | task < t.next && !InHand(t, task)
      ensures task in t.ends
    {
      assert TaskOk(t, task);
    }
  }

  /**
   Once nobody has task `t` in hand and it is not stored, it was ended: twice
   exactly if its handler's compare-exchange lost, and once otherwise.
   */
  lemma EndedTwiceExactly(steps: seq<Step>, t: nat)
    requires Legal(Init(), steps)
    ensures var s := After(Init(), steps);
            t < s.next && s.stored != Some(t) && !InHand(s, t) ==>
              && (s.ends[t] == 2 <==> Lost(s, t))
              && (s.ends[t] == 1 <==> !Lost(s, t))
  {
    RunKeepsInv(Init(), steps);
    assert TaskOk(After(Init(), steps), t);
  }

  /** At every point, the times that task `t` was ended. */
  lemma EndsAreExact(steps: seq<Step>, t: nat)
    requires Legal(Init(), steps)
    ensures var s := After(Init(), steps);
            && (s.ends[t] >= 2 <==> !Owned(s, t) && Expired(s, t) && Lost(s, t))
            && s.ends[t] <= 2
            && (t < s.next && s.ends[t] == 0 ==> s.stored == Some(t) || InHand(s, t))
  {
    RunKeepsInv(Init(), steps);
    assert TaskOk(After(Init(), steps), t);
  }

  /** One way to lose: an end takes the task out first. */
  lemma EndBeatsHandler()
    ensures var steps := [Start(true), Store, Fire(0), End, EndTaken, CompareSwap(0), EndExpired(0)];
            Legal(Init(), steps) && After(Init(), steps).ends[0] == 2
  {
    var steps := [Start(true), Store, Fire(0), End, EndTaken, CompareSwap(0), EndExpired(0)];
    var s1 := Do(Init(), Start(true));
    var s3 := Do(Do(s1, Store), Fire(0));
    var s5 := Do(Do(s3, End), EndTaken);
    var s6 := Do(s5, CompareSwap(0));
    Suffix(s6, steps, 6);
    Suffix(s5, steps, 5);
    Suffix(Do(s3, End), steps, 4);
    Suffix(s3, steps, 3);
    Suffix(Do(s1, Store), steps, 2);
    Suffix(s1, steps, 1);
    Suffix(Init(), steps, 0);
    assert steps[0..] == steps;
  }

  /** The other: the handler ends the task before it is stored, so that what is stored has ended already. */
  lemma HandlerBeatsStore()
    ensures var steps := [Start(true), Fire(0), CompareSwap(0), EndExpired(0), Store, End, EndTaken];
            && Legal(Init(), steps) && After(Init(), steps).ends[0] == 2
            && Legal(Init(), steps[..5])
            && After(Init(), steps[..5]).stored == Some(0) && After(Init(), steps[..5]).ends[0] == 1
  {
    var steps := [Start(true), Fire(0), CompareSwap(0), EndExpired(0), Store, End, EndTaken];
    var s1 := Do(Init(), Start(true));
    var s3 := Do(Do(s1, Fire(0)), CompareSwap(0));
    var s4 := Do(s3, EndExpired(0));
    var s5 := Do(s4, Store);
    var s6 := Do(s5, End);
    Suffix(s6, steps, 6);
    Suffix(s5, steps, 5);
    BothSuffixes(s4, steps, 4);
    BothSuffixes(s3, steps, 3);
    BothSuffixes(Do(s1, Fire(0)), steps, 2);
    BothSuffixes(s1, steps, 1);
    BothSuffixes(Init(), steps, 0);
    assert steps[0..] == steps && steps[..5][0..] == steps[..5];
  }

  /** The rest of a run from its `k`-th step on. */
  lemma Suffix(s: Suspension, steps: seq<Step>, k: nat)
    requires k < |steps| && Enabled(s, steps[k]) && Legal(Do(s, steps[k]), steps[k + 1..])
    ensures Legal(s, steps[k..]) && After(s, steps[k..]) == After(Do(s, steps[k]), steps[k + 1..])
  {
    assert steps[k..][1..] == steps[k + 1..];
  }

  lemma BothSuffixes(s: Suspension, steps: seq<Step>, k: nat)
    requires k < 5 < |steps| && Enabled(s, steps[k])
    requires Legal(Do(s, steps[k]), steps[k + 1..]) && Legal(Do(s, steps[k]), steps[..5][k + 1..])
    ensures Legal(s, steps[k..]) && After(s, steps[k..]) == After(Do(s, steps[k]), steps[k + 1..])
    ensures Legal(s, steps[..5][k..])
    ensures After(s, steps[..5][k..]) == After(Do(s, steps[k]), steps[..5][k + 1..])
  {
    Suffix(s, steps, k);
    Suffix(s, steps[..5], k);
  }

  // The stored identifier as the source keeps it; each method runs its steps without a pause

  lemma AfterThree(s: Suspension, a: Step, b: Step, c: Step)
    ensures After(s, [a]) == Do(s, a)
    ensures After(s, [a, b]) == Do(Do(s, a), b)
    ensures After(s, [a, b, c]) == Do(Do(Do(s, a), b), c)
  {
    assert [a, b][1..] == [b] && [a, b, c][1..] == [b, c] && [b, c][1..] == [c];
    assert After(Do(s, a), [b]) == Do(Do(s, a), b);
    assert After(Do(s, a), [b, c]) == After(Do(Do(s, a), b), [c]);
    assert After(Do(Do(s, a), b), [c]) == Do(Do(Do(s, a), b), c);
  }

  class BackgroundTask {
    var stored: Option<nat>
    ghost var value: Suspension

    ghost predicate Valid()
      reads this
    {
      stored == value.stored && Inv(value)
    }

    constructor ()
      ensures Valid() && value == Init()
    {
      stored, value := None, Init();
    }

    /** Stores `task`, just begun, or none if the system refused; and ends the task that was stored. */
    method Start(task: Option<nat>) returns (ended: Option<nat>)
      requires Valid() && Enabled(value, Step.Start(task.Some?)) && (task.Some? ==> task.value == value.next)
      modifies this
      ensures Valid() && stored == task && ended == old(stored)
      ensures value == After(old(value), [Step.Start(task.Some?), Store] + (if ended.Some? then [EndTaken] else []))
    {
      ghost var start := Step.Start(task.Some?);
      AfterThree(value, start, Store, EndTaken);
      assert [start, Store] + [EndTaken] == [start, Store, EndTaken];
      assert [start, Store] + [] == [start, Store];
      Advance(start);
      Advance(Store);
      ended := stored;
      stored := task;
      if ended.Some? {
        Advance(EndTaken);
      }
    }

    /** Ends the stored task, if any; `last` says that none may begin from now on. */
    method End(last: bool) returns (ended: Option<nat>)
      requires Valid() && Enabled(value, if last then Clear else Step.End)
      modifies this
      ensures Valid() && stored.None? && ended == old(stored)
      ensures last ==> forall granted :: !Enabled(value, Step.Start(granted))
      ensures value == After(old(value), [if last then Clear else Step.End] + (if ended.Some? then [EndTaken] else []))
    {
      ghost var step := if last then Clear else Step.End;
      AfterThree(value, step, EndTaken, EndTaken);
      assert [step] + [EndTaken] == [step, EndTaken];
      assert [step] + [] == [step];
      Advance(step);
      ended := stored;
      stored := None;
      if ended.Some? {
        Advance(EndTaken);
      }
    }

    /** The expiration handler of `task`, which ends its task whatever is stored. */
    method Expire(task: nat)
      requires Valid() && Enabled(value, CompareSwap(task))
      modifies this
      ensures Valid() && stored == (if old(stored) == Some(task) then None else old(stored))
      ensures value == After(old(value), [CompareSwap(task), EndExpired(task)])
    {
      AfterThree(value, CompareSwap(task), EndExpired(task), EndTaken);
      Advance(CompareSwap(task));
      if stored == Some(task) {
        stored := None;
      }
      Advance(EndExpired(task));
    }

    ghost method Advance(step: Step)
      requires Inv(value) && Enabled(value, step)
      modifies this`value
      ensures Inv(value) && value == Do(old(value), step)
    {
      StepKeepsInv(value, step);
      value := Do(value, step);
    }
  }
}
