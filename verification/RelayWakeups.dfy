/** The wakeups of waiting readers: exactly when one is lost. */
module RelayWakeups {
  import opened Wrappers
  import opened Events
  import opened RelayProtocol

  /** The reader waits although there is something to read. */
  predicate WaitsOnUnread(s: Relay, r: nat) {
    At(s, r, Waiting) && s.readers[r].idx < |s.events|
  }

  /** A wakeup is in the notify channel, or the pump has appended and is about to send one. */
  predicate WakeupPending(s: Relay) {
    s.token || s.pump == MustNotify
  }

  /** The last step of a run that put the token into the channel or took it out. */
  function LastTokenStep(steps: seq<Step>): Option<Step> {
    if steps == [] then None
    else
      var last := steps[|steps| - 1];
      if last.Notify? || last.WakeOnToken? then Some(last) else LastTokenStep(steps[..|steps| - 1])
  }

  predicate TakenByAnother(steps: seq<Step>, r: nat) {
    var last := LastTokenStep(steps);
    last.Some? && last.value.WakeOnToken? && last.value.r != r
  }

  lemma {:induction false} TokenTells(steps: seq<Step>)
    requires IsRun(steps)
    ensures After(steps).token <==> LastTokenStep(steps) == Some(Notify)
  {
    if steps != [] {
      TokenTells(steps[..|steps| - 1]);
    }
  }

  lemma {:induction false} UnreadWasNotified(steps: seq<Step>, r: nat)
    requires IsRun(steps) && WaitsOnUnread(After(steps), r) && After(steps).pump != MustNotify
    ensures LastTokenStep(steps) == Some(Notify) || TakenByAnother(steps, r)
  {
    if steps != [] {
      var front, last := steps[..|steps| - 1], steps[|steps| - 1];
      var s := After(front);
      if r < |s.readers| {
        OthersStay(s, last, r);
        if !last.Notify? && !last.WakeOnToken? {
          assert WaitsOnUnread(s, r) && s.pump != MustNotify;
          UnreadWasNotified(front, r);
        }
      }
    }
  }

  /** Exactly when a wakeup is lost, for any number of readers and in every run: a reader that waits on
      unread events has no wakeup on its way if and only if the pump has not just appended and the last
      step on the token was another reader's, which took it. */
  lemma {:induction false} WakeupLostExactly(steps: seq<Step>, r: nat)
    requires IsRun(steps) && WaitsOnUnread(After(steps), r)
    ensures !WakeupPending(After(steps)) <==> After(steps).pump != MustNotify && TakenByAnother(steps, r)
  {
    TokenTells(steps);
    if After(steps).pump != MustNotify {
      UnreadWasNotified(steps, r);
    }
  }

  lemma {:induction false} TokenTakenByAReader(steps: seq<Step>)
    requires IsRun(steps) && LastTokenStep(steps).Some? && LastTokenStep(steps).value.WakeOnToken?
    ensures LastTokenStep(steps).value.r < |After(steps).readers|
  {
    var front, last := steps[..|steps| - 1], steps[|steps| - 1];
    if !last.WakeOnToken? {
      TokenTakenByAReader(front);
      OthersStay(After(front), last, LastTokenStep(front).value.r);
    }
  }

  /** So a lone reader is never left waiting on unread events. */
  lemma {:induction false} LoneReaderIsWoken(steps: seq<Step>)
    requires IsRun(steps) && |After(steps).readers| == 1 && WaitsOnUnread(After(steps), 0)
    ensures WakeupPending(After(steps))
  {
    WakeupLostExactly(steps, 0);
    if TakenByAnother(steps, 0) {
      TokenTakenByAReader(steps);
    }
  }

  /** Two readers that have read all there is. */
  lemma {:induction false} TwoReadersWait()
    returns (steps: seq<Step>)
    ensures IsRun(steps)
    ensures var s := After(steps);
            && s.events == [] && s.pump == Idle && !s.token && |s.readers| == 2
            && At(s, 0, Waiting) && At(s, 1, Waiting) && s.readers[1].idx == 0
  {
    steps := [];
    steps := Extend(steps, Stream(0, true));
    steps := Extend(steps, Stream(0, false));
    steps := Extend(steps, CheckDone(0));
    steps := Extend(steps, CheckDone(1));
  }

  /** With two readers the token can be taken by one of them: the other then waits on an unread event
      without a wakeup. The turn's own pair, the subscriber and the side-effect pump, is such a pair. */
  lemma {:induction false} TwoReadersCanLoseAWakeup(ev: StreamEvent)
    returns (steps: seq<Step>)
    ensures IsRun(steps)
    ensures |After(steps).readers| == 2 && WaitsOnUnread(After(steps), 1) && !WakeupPending(After(steps))
  {
    steps := TwoReadersWait();
    steps := Extend(steps, Append(ev));
    steps := Extend(steps, Notify);
    steps := Extend(steps, WakeOnToken(0));
  }
}
