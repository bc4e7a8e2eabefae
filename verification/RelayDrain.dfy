/** The readers of a relay once its done channel is closed: nobody stays in the wait, and exactly those
    readers end that can still get rid of what they have to send. */
module RelayDrain {
  import opened Seqs
  import opened Events
  import opened RelayProtocol

  predicate Ended(reader: Reader) {
    reader.at == EndedOnDone || reader.at == EndedOnInput
  }

  /** A step of the reader goroutine itself, not of its consumer. */
  predicate OwnStep(step: Step, r: nat) {
    Concerns(step, r) && !step.Receive? && !step.Abandon?
  }

  predicate CanMove(s: Relay, r: nat) {
    || Enabled(s, Take(r)) || Enabled(s, Send(r)) || Enabled(s, CheckDone(r))
    || Enabled(s, WakeOnToken(r)) || Enabled(s, WakeOnDone(r))
  }

  /** The reader holds an event for a channel that is full. */
  predicate BlockedOnSend(reader: Reader) {
    reader.at.Sending? && Room(reader) <= 0
  }

  /** In every run, once the done channel is closed, a reader that has not ended can move unless it holds
      an event for a full channel; in particular nobody stays in the wait, however many share the
      relay. A blocked reader waits for a consumer that can receive, or for one that has gone. */
  lemma {:induction false} BlockedExactly(steps: seq<Step>, r: nat)
    requires IsRun(steps) && After(steps).doneClosed && r < |After(steps).readers|
    ensures var s := After(steps);
            && (!CanMove(s, r) <==> Ended(s.readers[r]) || BlockedOnSend(s.readers[r]))
            && (At(s, r, Waiting) ==> Enabled(s, WakeOnDone(r)))
            && (BlockedOnSend(s.readers[r]) ==> Enabled(s, Receive(r)) || !s.readers[r].listening)
  {
    RunKeepsInv(steps);
    assert ReaderOk(After(steps), After(steps).readers[r]);
  }

  // ---------------------------------------------------------------- what is left to send

  /** How many of these events a reader sends before it ends. */
  function SendsOf(stop: bool, events: seq<StreamEvent>): nat {
    if events == [] then 0
    else if stop && events[0].kind == UserInputRequired then 1
    else 1 + SendsOf(stop, events[1..])
  }

  /** What a reader still has to send, now that the buffer no longer grows. */
  function Left(s: Relay, reader: Reader): nat {
    var rest := if reader.idx <= |s.events| then SendsOf(reader.stopOnInput, s.events[reader.idx..]) else 0;
    match reader.at
    case Scanning => rest
    case Waiting => rest
    case Sending(ev) => if reader.stopOnInput && ev.kind == UserInputRequired then 1 else 1 + rest
    case _ => 0
  }

  /** A bound on the reader's own steps. */
  function Remaining(s: Relay, reader: Reader): nat {
    var unread := if reader.idx < |s.events| then |s.events| - reader.idx else 0;
    match reader.at
    case Scanning => 2 * unread + 1
    case Sending(_) => 2 * unread + 2
    case Waiting => 2 * unread + 2
    case _ => 0
  }

  lemma {:induction false} TakeLeaves(s: Relay, reader: Reader)
    requires reader.at == Scanning && reader.idx < |s.events|
    ensures Left(s, Moved(s, Take(0), reader)) == Left(s, reader)
  {
    assert s.events[reader.idx..][1..] == s.events[reader.idx + 1..];
  }

  /** After the close every step that concerns a reader sends one event or leaves as many to send, and
      the goroutine's own steps are bounded. */
  lemma {:induction false} MoveLeaves(s: Relay, step: Step, r: nat)
    requires Inv(s) && s.doneClosed && r < |s.readers| && Enabled(s, step) && Concerns(step, r)
    ensures var before, after := s.readers[r], Moved(s, step, s.readers[r]);
            && Left(s, after) == Left(s, before) - (if step.Send? then 1 else 0)
            && |after.sent| == |before.sent| + (if step.Send? then 1 else 0)
            && (OwnStep(step, r) ==> Remaining(s, after) < Remaining(s, before))
            && (!OwnStep(step, r) ==> Remaining(s, after) == Remaining(s, before))
            && (Remaining(s, after) == 0 <==> Ended(after))
  {
    var reader := s.readers[r];
    assert ReaderOk(s, reader);
    if step.Take? {
      TakeLeaves(s, reader);
    } else if step.CheckDone? && reader.idx == |s.events| {
      assert s.events[reader.idx..] == [];
    }
  }

  lemma {:induction false} StaysClosed(s: Relay, step: Step)
    requires Inv(s) && s.doneClosed && Enabled(s, step)
    ensures Apply(s, step).doneClosed && Apply(s, step).events == s.events && Apply(s, step).sourceDone
  {
  }

  /** What has to go into the channel fits into it without a consumer. */
  predicate Fits(s: Relay, reader: Reader) {
    Left(s, reader) <= Room(reader)
  }

  /** Once its consumer has gone, whether a reader's events fit is decided. */
  lemma {:induction false} AbandonedIsDecided(s: Relay, step: Step, r: nat)
    requires Inv(s) && s.doneClosed && r < |s.readers| && Enabled(s, step) && !s.readers[r].listening
    ensures var t := Apply(s, step);
            r < |t.readers| && !t.readers[r].listening && (Fits(t, t.readers[r]) <==> Fits(s, s.readers[r]))
  {
    OthersStay(s, step, r);
    StaysClosed(s, step);
    if Concerns(step, r) {
      MoveLeaves(s, step, r);
      SameLeft(s, Apply(s, step), Moved(s, step, s.readers[r]));
    } else {
      SameLeft(s, Apply(s, step), s.readers[r]);
    }
  }

  lemma {:induction false} SameLeft(s: Relay, t: Relay, reader: Reader)
    requires t.events == s.events
    ensures Left(t, reader) == Left(s, reader) && Remaining(t, reader) == Remaining(s, reader)
  {
  }

  // ---------------------------------------------------------------- who ends

  /** The consumer has gone with more to send than fits. */
  predicate Leaked(s: Relay, r: nat) {
    s.doneClosed && r < |s.readers| && !s.readers[r].listening && !Fits(s, s.readers[r])
  }

  lemma {:induction false} LeakedStays(s: Relay, step: Step, r: nat)
    requires Inv(s) && Leaked(s, r) && Enabled(s, step)
    ensures Leaked(Apply(s, step), r)
  {
    AbandonedIsDecided(s, step, r);
    StaysClosed(s, step);
  }

  lemma {:induction false} LeakedHasNotEnded(s: Relay, r: nat)
    requires Inv(s) && Leaked(s, r)
    ensures !Ended(s.readers[r])
  {
    assert ReaderOk(s, s.readers[r]);
  }

  /** Such a reader never ends. */
  lemma {:induction false} NeverEnds(steps: seq<Step>, more: seq<Step>, r: nat)
    requires IsRun(steps + more) && IsRun(steps) && Leaked(After(steps), r)
    ensures Leaked(After(steps + more), r) && !Ended(After(steps + more).readers[r])
    decreases |more|
  {
    if more == [] {
      AppendNothing(steps);
    } else {
      var front, last := more[..|more| - 1], more[|more| - 1];
      FrontOfSum(steps, more);
      NeverEnds(steps, front, r);
      RunKeepsInv(steps + front);
      LeakedStays(After(steps + front), last, r);
    }
    RunKeepsInv(steps + more);
    LeakedHasNotEnded(After(steps + more), r);
  }

  /** The next step towards the end of a reader, its own if it can move and else its consumer's. */
  function Towards(s: Relay, r: nat): Step
    requires r < |s.readers|
  {
    match s.readers[r].at
    case Scanning => if s.readers[r].idx < |s.events| then Take(r) else CheckDone(r)
    case Sending(_) => if Room(s.readers[r]) > 0 then Send(r) else Receive(r)
    case _ => WakeOnDone(r)
  }

  lemma {:induction false} TowardsIsEnabled(s: Relay, r: nat)
    requires Inv(s) && s.doneClosed && r < |s.readers| && !Ended(s.readers[r])
    requires s.readers[r].listening || Fits(s, s.readers[r])
    ensures Enabled(s, Towards(s, r)) && Concerns(Towards(s, r), r)
    ensures !s.readers[r].listening ==> OwnStep(Towards(s, r), r)
  {
    assert ReaderOk(s, s.readers[r]);
  }

  /** Taking those steps leads to the end. */
  lemma {:induction false} EndIsReached(steps: seq<Step>, r: nat)
    returns (more: seq<Step>)
    requires IsRun(steps) && After(steps).doneClosed && r < |After(steps).readers|
    requires After(steps).readers[r].listening || Fits(After(steps), After(steps).readers[r])
    ensures IsRun(steps + more) && r < |After(steps + more).readers| && Ended(After(steps + more).readers[r])
    decreases Remaining(After(steps), After(steps).readers[r]), Queued(After(steps).readers[r])
  {
    var s := After(steps);
    if Ended(s.readers[r]) {
      more := [];
      AppendNothing(steps);
    } else {
      RunKeepsInv(steps);
      TowardsIsEnabled(s, r);
      var step := Towards(s, r);
      RunSnoc(steps, step);
      OneStepCloser(s, step, r);
      var rest := EndIsReached(steps + [step], r);
      more := [step] + rest;
      Regroup(steps, [step], rest);
    }
  }

  lemma {:induction false} OneStepCloser(s: Relay, step: Step, r: nat)
    requires Inv(s) && s.doneClosed && r < |s.readers| && Enabled(s, step) && Concerns(step, r)
    requires !step.Abandon? && (s.readers[r].listening || Fits(s, s.readers[r]))
    ensures var t := Apply(s, step);
            && t.doneClosed && r < |t.readers|
            && (t.readers[r].listening || Fits(t, t.readers[r]))
            && (|| Remaining(t, t.readers[r]) < Remaining(s, s.readers[r])
                || (Remaining(t, t.readers[r]) == Remaining(s, s.readers[r])
                    && Queued(t.readers[r]) < Queued(s.readers[r])))
  {
    OthersStay(s, step, r);
    StaysClosed(s, step);
    MoveLeaves(s, step, r);
    SameLeft(s, Apply(s, step), Moved(s, step, s.readers[r]));
    if !s.readers[r].listening {
      AbandonedIsDecided(s, step, r);
    }
  }

  /** Exactly which readers end after the close, in every run: a reader has a continuation in which it
      ends if and only if its consumer still listens or what it has left fits its channel. */
  lemma {:induction false} EndsExactly(steps: seq<Step>, r: nat)
    requires IsRun(steps) && After(steps).doneClosed && r < |After(steps).readers|
    ensures (exists more :: IsRun(steps + more) && r < |After(steps + more).readers|
                            && Ended(After(steps + more).readers[r]))
            <==> After(steps).readers[r].listening || Fits(After(steps), After(steps).readers[r])
  {
    if After(steps).readers[r].listening || Fits(After(steps), After(steps).readers[r]) {
      var more := EndIsReached(steps, r);
    } else if more :| IsRun(steps + more) && r < |After(steps + more).readers|
                      && Ended(After(steps + more).readers[r]) {
      NeverEnds(steps, more, r);
    }
  }

  /** A reader whose events fit never blocks again, whatever all others do: it can move until it ends, and
      its own steps are bounded by `Remaining`. */
  lemma {:induction false} FittingReaderRunsOut(steps: seq<Step>, step: Step, r: nat)
    requires IsRun(steps) && After(steps).doneClosed && r < |After(steps).readers|
    requires !After(steps).readers[r].listening && Fits(After(steps), After(steps).readers[r])
    requires Enabled(After(steps), step)
    ensures var s, t := After(steps), After(steps + [step]);
            && IsRun(steps + [step]) && r < |t.readers| && t.doneClosed
            && (Ended(s.readers[r]) || CanMove(s, r))
            && !t.readers[r].listening && Fits(t, t.readers[r])
            && Remaining(t, t.readers[r]) <= Remaining(s, s.readers[r]) - (if OwnStep(step, r) then 1 else 0)
  {
    var s := After(steps);
    RunKeepsInv(steps);
    RunSnoc(steps, step);
    BlockedExactly(steps, r);
    AbandonedIsDecided(s, step, r);
    StaysClosed(s, step);
    OthersStay(s, step, r);
    if !Ended(s.readers[r]) {
      TowardsIsEnabled(s, r);
    }
    if Concerns(step, r) {
      MoveLeaves(s, step, r);
      SameLeft(s, Apply(s, step), Moved(s, step, s.readers[r]));
    } else {
      SameLeft(s, Apply(s, step), s.readers[r]);
    }
  }

  // ---------------------------------------------------------------- a leak

  lemma {:induction false} AppendMany(steps: seq<Step>, ev: StreamEvent, n: nat)
    returns (longer: seq<Step>)
    requires IsRun(steps) && After(steps).pump == Idle
    ensures IsRun(longer) && After(longer).pump == Idle && After(longer).readers == After(steps).readers
    ensures |After(longer).events| == |After(steps).events| + n
  {
    longer := steps;
    if n > 0 {
      longer := AppendMany(steps, ev, n - 1);
      longer := Extend(longer, Append(ev));
      longer := Extend(longer, Notify);
    }
  }

  lemma {:induction false} SendsAll(events: seq<StreamEvent>)
    ensures SendsOf(false, events) == |events|
  {
    if events != [] {
      SendsAll(events[1..]);
    }
  }

  /** One event more than the channel holds, and a consumer that goes away before it receives any, as a
      subscriber does that is stolen or whose client is gone: the reader is left for ever. */
  lemma {:induction false} AbandonedReaderLeaks(ev: StreamEvent)
    returns (steps: seq<Step>)
    ensures IsRun(steps) && |After(steps).readers| == 1
    ensures forall more :: IsRun(steps + more) ==>
              |After(steps + more).readers| > 0 && !Ended(After(steps + more).readers[0])
  {
    steps := [];
    steps := Extend(steps, Stream(0, false));
    steps := AppendMany(steps, ev, CAPACITY + 1);
    steps := Extend(steps, SetDone);
    steps := Extend(steps, CloseDone);
    steps := Extend(steps, Abandon(0));
    var s := After(steps);
    SendsAll(s.events);
    assert s.events[0..] == s.events;
    assert !Fits(s, s.readers[0]);
    forall more | IsRun(steps + more)
      ensures |After(steps + more).readers| > 0 && !Ended(After(steps + more).readers[0])
    {
      NeverEnds(steps, more, 0);
    }
  }
}
