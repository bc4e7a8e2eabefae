/** The single stealable subscriber of a turn and its reattach timer
    (agentservice/exec_registry.go and handler_retry.go). */
module Subscriber {
  import opened Wrappers

  /** The fields guarded by subMu, with the contexts cancelled and the timers running outside them. A
      subscriber's context is named by its generation, a timer by the order of its creation. */
  datatype Exec = Exec(subCancel: Option<nat>, subscriberGen: nat, reattachTimer: Option<nat>, suspended: bool,
                       cancelled: set<nat>, timersMade: nat, running: set<nat>)

  const NEW := Exec(None, 0, None, false, {}, 0, {})

  function TimerStopped(e: Exec): Exec {
    if e.reattachTimer.Some? then e.(running := e.running - {e.reattachTimer.value}, reattachTimer := None) else e
  }

  function Stolen(e: Exec): Exec {
    var s := TimerStopped(e);
    s.(cancelled := if s.subCancel.Some? then s.cancelled + {s.subCancel.value} else s.cancelled,
       subCancel := Some(s.subscriberGen + 1),
       subscriberGen := s.subscriberGen + 1)
  }

  function Cleared(e: Exec, gen: nat): Exec {
    if gen == e.subscriberGen then e.(subCancel := None) else e
  }

  predicate CanArm(e: Exec) {
    e.subCancel == None && !e.suspended && e.reattachTimer == None
  }

  function Armed(e: Exec): Exec {
    if !CanArm(e) then e
    else e.(reattachTimer := Some(e.timersMade), timersMade := e.timersMade + 1, running := e.running + {e.timersMade})
  }

  /** activeExecution, as far as its subscriber goes. */
  class ActiveExecution {
    var subCancel: Option<nat>
    var subscriberGen: nat
    var reattachTimer: Option<nat>
    var suspended: bool
    var cancelled: set<nat>
    var timersMade: nat
    var running: set<nat>

    function View(): Exec
      reads this
    {
      Exec(subCancel, subscriberGen, reattachTimer, suspended, cancelled, timersMade, running)
    }

    constructor ()
      ensures View() == NEW
    {
      subCancel, subscriberGen, reattachTimer, suspended := None, 0, None, false;
      cancelled, timersMade, running := {}, 0, {};
    }

    method StopReattachTimer()
      modifies this
      ensures View() == TimerStopped(old(View()))
    {
      if reattachTimer.Some? {
        running := running - {reattachTimer.value};
        reattachTimer := None;
      }
    }

    method StealSubscriber() returns (gen: nat)
      modifies this
      ensures View() == Stolen(old(View())) && gen == subscriberGen == old(subscriberGen) + 1
    {
      if reattachTimer.Some? {
        running := running - {reattachTimer.value};
        reattachTimer := None;
      }
      if subCancel.Some? {
        cancelled := cancelled + {subCancel.value};
        subCancel := None;
      }
      subCancel := Some(subscriberGen + 1);
      subscriberGen := subscriberGen + 1;
      gen := subscriberGen;
    }

    method ClearSubscriber(gen: nat) returns (current: bool)
      modifies this
      ensures View() == Cleared(old(View()), gen) && (current <==> gen == subscriberGen)
    {
      if gen != subscriberGen {
        return false;
      }
      subCancel := None;
      return true;
    }

    method ArmReattachTimer()
      modifies this
      ensures View() == Armed(old(View()))
    {
      if subCancel.Some? || suspended {
        return;
      }
      if reattachTimer.Some? {
        return;
      }
      reattachTimer := Some(timersMade);
      running := running + {timersMade};
      timersMade := timersMade + 1;
    }

    /** What attachSSE defers to when its subscriber leaves. */
    method Detach(gen: nat)
      modifies this
      ensures var e := Cleared(old(View()), gen);
              View() == if gen == old(subscriberGen) then Armed(e) else e
    {
      var current := ClearSubscriber(gen);
      if current {
        ArmReattachTimer();
      }
    }
  }

  // ---------------------------------------------------------------- runs

  /** A subscriber attaches, or leaves; the timer is armed or stopped; a running timer goes off, which
      starts its callback; a callback runs; the status changes. */
  datatype Step =
    | Steal
    | Leave(gen: nat)
    | Arm
    | Stop
    | Fire(timer: nat)
    | Callback(timer: nat)
    | SetSuspended(to: bool)

  /** The execution, the generations whose handler has not left, those issued so far in order, the
      timers that went off and whose callback has not run, and whether a callback has closed the
      execution. */
  datatype System = System(exec: Exec, attached: set<nat>, issued: seq<nat>, fired: set<nat>, closed: bool)

  const START := System(NEW, {}, [], {}, false)

  /** Both callers of armReattachTimer run after a steal. */
  predicate Enabled(s: System, step: Step) {
    match step
    case Leave(gen) => gen in s.attached
    case Arm => s.issued != []
    case Fire(timer) => timer in s.exec.running
    case Callback(timer) => timer in s.fired
    case _ => true
  }

  /** The callback is stopExecOnDrainTimeout: it forgets whatever timer is recorded, and closes the
      execution without looking at the subscriber. */
  function Stepped(s: System, step: Step): System
    requires Enabled(s, step)
  {
    match step
    case Steal =>
      var e := Stolen(s.exec);
      s.(exec := e, attached := s.attached + {e.subscriberGen}, issued := s.issued + [e.subscriberGen])
    case Leave(gen) => s.(exec := Cleared(s.exec, gen), attached := s.attached - {gen})
    case Arm => s.(exec := Armed(s.exec))
    case Stop => s.(exec := TimerStopped(s.exec))
    case Fire(timer) => s.(exec := s.exec.(running := s.exec.running - {timer}), fired := s.fired + {timer})
    case Callback(timer) => s.(exec := TimerStopped(s.exec), fired := s.fired - {timer}, closed := true)
    case SetSuspended(to) => s.(exec := s.exec.(suspended := to))
  }

  ghost predicate Runs(s: System, steps: seq<Step>)
    decreases |steps|
  {
    steps == [] || (Enabled(s, steps[0]) && Runs(Stepped(s, steps[0]), steps[1..]))
  }

  function Ran(s: System, steps: seq<Step>): System
    requires Runs(s, steps)
    decreases |steps|
  {
    if steps == [] then s else Ran(Stepped(s, steps[0]), steps[1..])
  }

  /** What every run keeps. */
  ghost predicate Inv(s: System) {
    var e := s.exec;
    && (e.reattachTimer.Some? ==> e.subCancel == None)
    && (e.subCancel.Some? ==> e.subCancel.value == e.subscriberGen && e.subscriberGen in s.attached)
    // every running timer is the recorded one, and the recorded one runs or has just gone off
    && (forall t <- e.running :: e.reattachTimer == Some(t))
    && (e.reattachTimer.Some? ==> e.reattachTimer.value in e.running + s.fired && e.reattachTimer.value < e.timersMade)
    && (forall t <- s.fired :: t < e.timersMade && t !in e.running)
    // contexts: the older ones that are still attached are cancelled, the current one is not
    && (forall g <- s.attached :: 1 <= g <= e.subscriberGen)
    && (forall g <- s.attached :: g < e.subscriberGen ==> g in e.cancelled)
    && (forall g <- e.cancelled :: g < e.subscriberGen)
    // an attached current subscriber is the recorded one
    && (e.subscriberGen in s.attached ==> e.subCancel == Some(e.subscriberGen))
    && (forall i :: 0 <= i < |s.issued| ==> s.issued[i] == i + 1)
    && |s.issued| == e.subscriberGen
  }

  lemma {:induction false} StepKeepsInv(s: System, step: Step)
    requires Inv(s) && Enabled(s, step)
    ensures Inv(Stepped(s, step))
  {
  }

  lemma {:induction false} RunKeepsInv(s: System, steps: seq<Step>)
    requires Inv(s) && Runs(s, steps)
    ensures Inv(Ran(s, steps))
    decreases |steps|
  {
    if steps != [] {
      StepKeepsInv(s, steps[0]);
      RunKeepsInv(Stepped(s, steps[0]), steps[1..]);
    }
  }

  /** In every run: a recorded timer means no recorded subscriber and no timer runs unrecorded; of the
      subscribers still attached exactly those of older generations have been cancelled; and
      generations are issued in strictly increasing order. */
  lemma {:induction false} OneSubscriberAtATime(steps: seq<Step>)
    requires Runs(START, steps)
    ensures var s := Ran(START, steps);
            && (s.exec.reattachTimer.Some? ==> s.exec.subCancel == None && s.exec.subscriberGen !in s.attached)
            && (forall t <- s.exec.running :: s.exec.reattachTimer == Some(t))
            && (forall g <- s.attached :: g in s.exec.cancelled <==> g != s.exec.subscriberGen)
            && (forall i, j :: 0 <= i < j < |s.issued| ==> s.issued[i] < s.issued[j])
  {
    RunKeepsInv(START, steps);
  }

  /** A subscriber that was superseded leaves without a trace in the execution. */
  lemma {:induction false} StaleLeaveChangesNothing(steps: seq<Step>, gen: nat)
    requires Runs(START, steps) && gen in Ran(START, steps).attached && gen != Ran(START, steps).exec.subscriberGen
    ensures Stepped(Ran(START, steps), Leave(gen)).exec == Ran(START, steps).exec
    ensures gen in Ran(START, steps).exec.cancelled
  {
    RunKeepsInv(START, steps);
  }

  /** A subscriber is attached that nobody has cancelled. */
  ghost predicate Served(s: System) {
    exists g :: g in s.attached && g !in s.exec.cancelled
  }

  lemma {:induction false} ServedIsCurrent(s: System)
    requires Inv(s)
    ensures Served(s) <==> s.exec.subscriberGen in s.attached
  {
    if s.exec.subscriberGen in s.attached {
      assert s.exec.subscriberGen !in s.exec.cancelled;
    }
  }

  /** Exactly when the callback of a timer closes an execution under a subscriber, in every run: if and
      only if a subscriber is recorded at that moment, which hasSubscriber tells and the callback does
      not ask. */
  lemma {:induction false} CallbackClosesServedExactly(steps: seq<Step>, timer: nat)
    requires Runs(START, steps) && timer in Ran(START, steps).fired
    ensures var t := Stepped(Ran(START, steps), Callback(timer));
            t.closed && Served(t) <==> Ran(START, steps).exec.subCancel.Some?
  {
    var s := Ran(START, steps);
    RunKeepsInv(START, steps);
    StepKeepsInv(s, Callback(timer));
    ServedIsCurrent(s);
    ServedIsCurrent(Stepped(s, Callback(timer)));
  }

  /** The timer that is still recorded never does: it finds every subscriber left already cancelled. */
  lemma {:induction false} RecordedTimerFindsNobody(steps: seq<Step>, timer: nat)
    requires Runs(START, steps) && timer in Ran(START, steps).fired
    requires Ran(START, steps).exec.reattachTimer == Some(timer)
    ensures !Served(Stepped(Ran(START, steps), Callback(timer)))
  {
    RunKeepsInv(START, steps);
    CallbackClosesServedExactly(steps, timer);
  }

  lemma {:induction false} RunSnoc(s: System, steps: seq<Step>, step: Step)
    requires Runs(s, steps) && Enabled(Ran(s, steps), step)
    ensures Runs(s, steps + [step]) && Ran(s, steps + [step]) == Stepped(Ran(s, steps), step)
    decreases |steps|
  {
    if steps == [] {
      assert steps + [step] == [step] && [step][1..] == [];
    } else {
      assert (steps + [step])[1..] == steps[1..] + [step];
      RunSnoc(Stepped(s, steps[0]), steps[1..], step);
    }
  }

  lemma {:induction false} Extend(steps: seq<Step>, step: Step)
    returns (longer: seq<Step>)
    requires Runs(START, steps) && Enabled(Ran(START, steps), step)
    ensures Runs(START, longer) && Ran(START, longer) == Stepped(Ran(START, steps), step)
  {
    RunSnoc(START, steps, step);
    longer := steps + [step];
  }

  /** A run that does: the only subscriber leaves, the timer it armed goes off just before another one
      comes, and can no longer be stopped. */
  lemma {:induction false} LateCallbackClosesServed()
    returns (steps: seq<Step>)
    ensures Runs(START, steps) && Ran(START, steps).closed && Served(Ran(START, steps))
  {
    steps := [];
    steps := Extend(steps, Steal);
    steps := Extend(steps, Leave(1));
    steps := Extend(steps, Arm);
    steps := Extend(steps, Fire(0));
    steps := Extend(steps, Steal);
    steps := Extend(steps, Callback(0));
    assert 2 in Ran(START, steps).attached && 2 !in Ran(START, steps).exec.cancelled;
  }

  /** After the current subscriber has left and the deferred arming has run, exactly one timer runs
      unless the execution waits for the user. */
  lemma {:induction false} LeavingArmsTheTimer(steps: seq<Step>)
    requires Runs(START, steps) && Ran(START, steps).exec.subCancel.Some?
    ensures var s := Ran(START, steps);
            var e := Armed(Cleared(s.exec, s.exec.subscriberGen));
            if s.exec.suspended then e.reattachTimer == None && e.running == {}
            else e.reattachTimer.Some? && e.running == {e.reattachTimer.value}
  {
    RunKeepsInv(START, steps);
    assert Ran(START, steps).exec.running == {};
  }
}
