// viewer/src/main/java/com/viewer/old/Stepper.kt: coalesces requests to run a
// task on the next animation frame. `prod` posts one callback unless one is
// already pending; the callback clears the pending flag and runs the task.
//
// The view's animation queue is modelled by a count of posted callbacks and the
// task by a count of its runs; an animation frame runs one posted callback.

module StepperModel {
  /** The stepper's flag, the callbacks waiting in the view's queue, and the task's runs. */
  datatype StepperState = StepperState(pending: bool, posted: nat, runs: nat)

  datatype Event = Prod | Frame

  /** The queue holds a callback exactly while the stepper is pending, and never two. */
  predicate Coalesced(s: StepperState) {
    s.posted == (if s.pending then 1 else 0)
  }

  /** One event: `prod`, or an animation frame running one posted callback. */
  function Step(s: StepperState, e: Event): (t: StepperState)
    ensures t.runs == s.runs + (if e == Frame && s.posted > 0 then 1 else 0)
    ensures e == Prod ==> t.pending && (t.posted > s.posted <==> !s.pending) && t.posted <= s.posted + 1
    ensures e == Frame && s.posted > 0 ==> !t.pending && t.posted < s.posted
  {
    match e
    case Prod => if s.pending then s else StepperState(true, s.posted + 1, s.runs)
    case Frame => if s.posted > 0 then StepperState(false, s.posted - 1, s.runs + 1) else s
  }

  /** The state after a sequence of events. */
  function Steps(s: StepperState, events: seq<Event>): StepperState
    decreases |events|
  {
    if events == [] then s else Steps(Step(s, events[0]), events[1..])
  }

  /** The number of `prod` calls in a sequence of events. */
  function Prods(events: seq<Event>): nat
    decreases |events|
  {
    if events == [] then 0 else (if events[0] == Prod then 1 else 0) + Prods(events[1..])
  }

  /** A single event keeps the queue coalesced, and a task run needs a `prod` before it. */
  lemma StepCoalesces(s: StepperState, e: Event)
    requires Coalesced(s)
    ensures Coalesced(Step(s, e))
    ensures e == Prod ==> Step(s, e).pending && Step(s, e).runs == s.runs
    ensures e == Frame ==> !Step(s, e).pending && Step(s, e).runs == s.runs + (if s.pending then 1 else 0)
  {
  }

  /**
   * However `prod` and animation frames interleave, at most one callback is
   * ever queued, and the task runs at most once per `prod`: together with
   * the callback still queued, no more often than `prod` was called.
   */
  lemma {:induction false} StepsCoalesce(s: StepperState, events: seq<Event>)
    requires Coalesced(s)
    ensures Coalesced(Steps(s, events))
    ensures Steps(s, events).runs + Steps(s, events).posted <= s.runs + s.posted + Prods(events)
    decreases |events|
  {
    if events != [] {
      StepCoalesces(s, events[0]);
      StepsCoalesce(Step(s, events[0]), events[1..]);
    }
  }

  /**
   * A `prod` is never lost: after it, and any events but animation frames,
   * the stepper is pending with one callback queued, and the next frame runs
   * the task once and clears the flag, so that the next `prod` posts again.
   */
  lemma {:induction false} ProdServedAtNextFrame(s: StepperState, rest: seq<Event>)
    requires Coalesced(s)
    requires forall i :: 0 <= i < |rest| ==> rest[i] == Prod
    ensures var t := Steps(Step(s, Prod), rest);
      t.pending && t.posted == 1 && t.runs == s.runs &&
      Step(t, Frame) == StepperState(false, 0, s.runs + 1) &&
      Step(Step(t, Frame), Prod) == StepperState(true, 1, s.runs + 1)
    decreases |rest|
  {
    if rest != [] {
      var s' := Step(s, Prod);
      assert Step(s', rest[0]) == s';
      assert Steps(s', rest) == Steps(s', rest[1..]);
      ProdServedAtNextFrame(s, rest[1..]);
    }
  }

  class Stepper {
    var pending: bool
    /** Callbacks posted to the view with `postOnAnimation` and not yet run. */
    var posted: nat
    /** Runs of the task. */
    var runs: nat

    function State(): StepperState
      reads this
    {
      StepperState(pending, posted, runs)
    }

    predicate Valid()
      reads this
    {
      Coalesced(State())
    }

    /** `Stepper(poster, task)`: nothing pending or run. */
    constructor ()
      ensures Valid() && State() == StepperState(false, 0, 0)
    {
      pending := false;
      posted := 0;
      runs := 0;
    }

    /** `prod`: posts the callback unless one is already pending. */
    method Prod() returns (didPost: bool)
      requires Valid()
      modifies this
      ensures Valid() && State() == Step(old(State()), Event.Prod)
      ensures didPost <==> !old(pending)
      ensures pending
    {
      didPost := !pending;
      if !pending {
        pending := true;
        posted := posted + 1;
      }
    }

    /** An animation frame: the posted callback, if any, clears the flag and runs the task. */
    method AnimationFrame()
      requires Valid()
      modifies this
      ensures Valid() && State() == Step(old(State()), Event.Frame)
      ensures !pending && runs == old(runs) + (if old(pending) then 1 else 0)
    {
      if posted > 0 {
        posted := posted - 1;
        pending := false;
        runs := runs + 1;
      }
    }
  }
}
