/** What a poll's callback is called with, and when it is not called. */
module Callbacks {
  import opened Options
  import opened Rings
  import opened QueueModel
  import opened HostModel
  import opened StreamModel
  import opened Ipcs
  import opened System

  // One dispatch

  /** The first check keeps readable exactly if it was asked for and no read would block, and tells the callback so. */
  lemma FirstCheckIsExact(s: Sys, asked: Events)
    requires Shape(s) && PollEnabled(s, CheckReadable) && s.poll.pc == Asked(asked)
    ensures var t := DoPoll(s, CheckReadable);
            && t.poll.pc.Locked? && t.poll.pc.open == s.host.port
            && (t.poll.pc.ready.readable <==> asked.readable && ReadsGo(s.q, s.host))
            && t.poll.pc.ready.writable == asked.writable
            && t.told == s.told.(readable := s.told.readable || t.poll.pc.ready.readable)
  {
    ReadsGoExactly(s.q, s.host);
  }

  /** The second settles writable likewise, and calls back with exactly what is ready, if anything is. */
  lemma SecondCheckIsExact(s: Sys)
    requires Shape(s) && PollEnabled(s, CheckWritable)
    ensures var t := DoPoll(s, CheckWritable);
            var first := s.poll.pc.ready;
            && t.poll.pc == (if t.Called() == Events(false, false) then Asleep else Calling(t.Called()))
            && t.Called().readable == first.readable
            && (t.Called().writable <==> first.writable && (!s.host.port || WritesGo(s.q)))
            && t.told == s.told.(writable := s.told.writable || t.Called().writable,
                                 roomy := s.told.roomy || t.Called().writable)
  {
    WritesGoExactly(s.q);
  }

  // Runs

  /** What a dispatch has in hand at each of its points is of what it found asked for. */
  ghost predicate OfWhatWasAsked(p: Poll) {
    match p.pc
    case Asked(asked) => asked == p.loaded
    case Locked(ready, _) => (ready.readable ==> p.loaded.readable) && ready.writable == p.loaded.writable
    case Calling(ready) =>
      && !ready.None() && (ready.readable ==> p.loaded.readable) && (ready.writable ==> p.loaded.writable)
    case _ => true
  }

  lemma OthersLeavePoll(s: Sys, step: Step)
    requires Shape(s) && Enabled(s, step) && !step.OfPoll?
    ensures Do(s, step).poll == s.poll
  {
    match step
    case OfHost(h) => HostLeavesPoll(s, h);
    case OfWorklet(j) => JsLeavesPoll(s, j);
  }

  lemma HostLeavesPoll(s: Sys, step: HostStep)
    requires Shape(s) && HostEnabled(s, step)
    ensures DoHost(s, step).poll == s.poll
  {
  }

  lemma JsLeavesPoll(s: Sys, step: JsStep)
    requires Shape(s) && JsEnabled(s, step)
    ensures DoJs(s, step).poll == s.poll && DoJs(s, step).op == s.op
  {
    match step
    case JTurn(more) => TurnLeavesPoll(s, more);
    case _ =>
  }

  lemma TurnLeavesPoll(s: Sys, more: bool)
    ensures DoTurn(s, more).poll == s.poll && DoTurn(s, more).op == s.op
  {
  }

  lemma StepKeepsAsked(s: Sys, step: Step)
    requires Shape(s) && OfWhatWasAsked(s.poll) && Enabled(s, step)
    ensures OfWhatWasAsked(Do(s, step).poll)
  {
    match step
    case OfPoll(p) => PollKeepsAsked(s, p);
    case _ => OthersLeavePoll(s, step);
  }

  lemma PollKeepsAsked(s: Sys, step: PollStep)
    requires OfWhatWasAsked(s.poll) && PollEnabled(s, step)
    ensures OfWhatWasAsked(DoPoll(s, step).poll)
  {
  }

  lemma {:induction false} RunKeepsAsked(s: Sys, steps: seq<Step>)
    requires Shape(s) && OfWhatWasAsked(s.poll) && Legal(s, steps)
    ensures OfWhatWasAsked(After(s, steps).poll)
    decreases |steps|
  {
    if steps != [] {
      StepKeepsShape(s, steps[0]);
      StepKeepsAsked(s, steps[0]);
      RunKeepsAsked(Do(s, steps[0]), steps[1..]);
    }
  }

  /** In every interleaving a callback is called with something, and only with what its dispatch found asked for. */
  lemma CalledOnlyAsAsked(capacity: nat, maxChunk: nat, steps: seq<Step>)
    requires capacity > 0 && Legal(Init(capacity, maxChunk), steps)
    ensures var p := After(Init(capacity, maxChunk), steps).poll;
            p.pc.Calling? ==>
              && (p.pc.ready.readable || p.pc.ready.writable)
              && (p.pc.ready.readable ==> p.loaded.readable) && (p.pc.ready.writable ==> p.loaded.writable)
  {
    InitHasShape(capacity, maxChunk);
    RunKeepsAsked(Init(capacity, maxChunk), steps);
  }

  /** What was found asked for is what the poll was last started for. */
  lemma LoadsWhatWasStarted(s: Sys, events: Events)
    requires PollEnabled(s, StartEvents(events))
    ensures var t := DoPoll(s, StartEvents(events));
            t.told == Told(false, false, false) && t.poll.pc == s.poll.pc && DoPoll(t, LoadEvents).poll.loaded == events
  {
  }

  /** The poll has no callback to call, and its thread is not past looking for one. */
  ghost predicate Quiet(p: Poll) {
    !(p.attached && p.callback) && (p.pc.Asleep? || p.pc.WakeSeen?)
  }

  /** The poll asks for nothing, and its thread has nothing in hand from before. */
  ghost predicate Mute(p: Poll) {
    p.events.None() &&
    match p.pc
    case Asked(asked) => asked.None()
    case Locked(ready, _) => ready.None()
    case Calling(_) => false
    case _ => true
  }

  lemma StepKeepsQuiet(s: Sys, step: Step)
    requires Shape(s) && Enabled(s, step)
    ensures Quiet(s.poll) && step != OfPoll(StartCallback) ==> Quiet(Do(s, step).poll)
    ensures Mute(s.poll) && !(step.OfPoll? && step.p.StartEvents?) ==> Mute(Do(s, step).poll)
  {
    match step
    case OfPoll(p) =>
      if Mute(s.poll) && !p.StartEvents? {
        PollKeepsMute(s, p);
      }
    case _ => OthersLeavePoll(s, step);
  }

  lemma PollKeepsMute(s: Sys, step: PollStep)
    requires Mute(s.poll) && PollEnabled(s, step) && !step.StartEvents?
    ensures Mute(DoPoll(s, step).poll)
  {
  }

  /** No part of a start. */
  predicate NoStart(step: Step) {
    step.OfPoll? ==> !step.p.StartEvents? && !step.p.StartCallback?
  }

  lemma {:induction false} QuietStays(s: Sys, steps: seq<Step>)
    requires Shape(s) && Legal(s, steps) && forall i :: 0 <= i < |steps| ==> NoStart(steps[i])
    ensures Quiet(s.poll) ==> Quiet(After(s, steps).poll)
    ensures Mute(s.poll) ==> Mute(After(s, steps).poll)
    decreases |steps|
  {
    if steps != [] {
      StepKeepsShape(s, steps[0]);
      StepKeepsQuiet(s, steps[0]);
      QuietStays(Do(s, steps[0]), steps[1..]);
    }
  }

  /** Once a poll is detached, or either half of a stop is done, while its thread sleeps, no callback runs until a start. */
  lemma StoppedPollIsNotCalled(s: Sys, stop: PollStep, steps: seq<Step>)
    requires Shape(s) && PollEnabled(s, stop) && s.poll.pc.Asleep?
    requires stop.StopEvents? || stop.StopCallback? || stop.Detach?
    requires Legal(DoPoll(s, stop), steps) && forall i :: 0 <= i < |steps| ==> NoStart(steps[i])
    ensures !After(DoPoll(s, stop), steps).poll.pc.Calling?
  {
    PollKeepsShape(s, stop);
    QuietStays(DoPoll(s, stop), steps);
  }
}
