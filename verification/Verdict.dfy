/** What an attachment's terminal says about the log it streamed. */
module Verdict {
  import opened Wrappers
  import opened Events
  import opened Terminal
  import opened Attach

  predicate IsTerminal(ev: StreamEvent) {
    ev.kind == Events.Result || IsFinalError(ev)
  }

  predicate HasTerminalIn(log: seq<StreamEvent>, from: nat, k: nat)
    requires k <= |log|
  {
    exists i :: from <= i < k && IsTerminal(log[i])
  }

  predicate HasUserInput(log: seq<StreamEvent>) {
    exists i :: 0 <= i < |log| && log[i].kind == UserInputRequired
  }

  predicate Seen(log: seq<StreamEvent>, from: nat, k: nat, kind: Kind)
    requires k <= |log|
  {
    exists i :: from <= i < k && log[i].kind == kind
  }

  lemma {:induction false} OneMoreSeen(log: seq<StreamEvent>, from: nat, k: nat, kind: Kind)
    requires from <= k < |log|
    ensures Seen(log, from, k + 1, kind) <==> Seen(log, from, k, kind) || log[k].kind == kind
  {
  }

  /** The loop's terminal after the events log[from..k]. */
  function TermAfter(log: seq<StreamEvent>, from: nat, k: nat): StreamTerminal
    requires k <= |log|
  {
    if k <= from then NO_TERMINAL else TerminalAfter(TermAfter(log, from, k - 1), log[k - 1])
  }

  /** What the loop knows while it streams. */
  ghost predicate Tracks(log: seq<StreamEvent>, stop: bool, from: nat, s: AttachState) {
    && from <= s.idx <= |log|
    && s.term == TermAfter(log, from, s.idx)
    && (s.terminalWritten <==> HasTerminalIn(log, from, s.idx))
    && (s.drainArmed ==> Seen(log, from, s.idx, Events.Result))
    && (s.suspended <==> Seen(log, from, s.idx, UserInputRequired))
    && (s.suspended ==> !stop)
  }

  /** How the loop can have ended without losing its subscriber. */
  ghost predicate Ends(log: seq<StreamEvent>, stop: bool, from: nat, s: AttachState) {
    match s.outcome
    case Streaming => Tracks(log, stop, from, s)
    case Closed =>
      exists t: AttachState ::
        && Tracks(log, stop, from, t) && t.outcome == Streaming && t.idx == |log|
        && s.term == Ensured(t.term, log) && s.suspended == t.suspended
        && (s.idx == |log| + 1 <==> !t.terminalWritten && !s.term.retryable)
        && |log| <= s.idx <= |log| + 1
    case Drained => HasResult(log) && s.term == RESULT_TERMINAL
    case Suspended => stop && s.suspended && HasUserInput(log)
    case _ => true
  }

  lemma {:induction false} OneMoreTerminal(log: seq<StreamEvent>, from: nat, k: nat)
    requires from <= k < |log|
    ensures HasTerminalIn(log, from, k + 1) <==> HasTerminalIn(log, from, k) || IsTerminal(log[k])
  {
  }

  /** What writing one event does to the flags. */
  ghost predicate Advances(s: AttachState, t: AttachState, stop: bool, ev: StreamEvent) {
    && t.idx == s.idx + 1 && t.term == TerminalAfter(s.term, ev)
    && t.outcome in {Streaming, Suspended, WriteFailed}
    && (t.outcome != WriteFailed ==>
          && (t.terminalWritten <==> s.terminalWritten || IsTerminal(ev))
          && (t.drainArmed <==> s.drainArmed || ev.kind == Events.Result)
          && (t.suspended <==> s.suspended || ev.kind == UserInputRequired)
          && (t.outcome == Suspended <==> t.suspended && stop))
  }

  lemma {:induction false} WriteAdvances(turn: Turn, enc: Encoder, stop: bool, s: AttachState, ev: StreamEvent)
    requires s.outcome == Streaming && (s.suspended ==> !stop)
    ensures Advances(s, WriteEvent(turn, enc, stop, s, ev), stop, ev)
  {
  }

  lemma {:induction false} AdvanceTracks(log: seq<StreamEvent>, stop: bool, from: nat, s: AttachState, t: AttachState)
    requires s.outcome == Streaming && Tracks(log, stop, from, s) && s.idx < |log|
    requires Advances(s, t, stop, log[s.idx])
    ensures t.outcome == Streaming ==> Tracks(log, stop, from, t)
    ensures t.outcome == Suspended ==> stop && t.suspended && HasUserInput(log)
  {
    OneMoreTerminal(log, from, s.idx);
    OneMoreSeen(log, from, s.idx, Events.Result);
    OneMoreSeen(log, from, s.idx, UserInputRequired);
    if t.outcome == Suspended {
      assert log[s.idx].kind == UserInputRequired;
    }
  }

  lemma {:induction false} WriteTracks(turn: Turn, log: seq<StreamEvent>, enc: Encoder, stop: bool, from: nat,
                                       s: AttachState)
    requires s.outcome == Streaming && Tracks(log, stop, from, s) && s.idx < |log|
    ensures Ends(log, stop, from, WriteEvent(turn, enc, stop, s, log[s.idx]))
  {
    WriteAdvances(turn, enc, stop, s, log[s.idx]);
    AdvanceTracks(log, stop, from, s, WriteEvent(turn, enc, stop, s, log[s.idx]));
  }

  lemma {:induction false} CloseTracks(turn: Turn, log: seq<StreamEvent>, stop: bool, from: nat, s: AttachState)
    requires s.outcome == Streaming && Tracks(log, stop, from, s) && s.idx == |log|
    ensures Ends(log, stop, from, CloseStream(turn, log, s))
  {
    var t := CloseStream(turn, log, s);
    EnsuredKind(s.term, log);
    assert t.term == Ensured(s.term, log);
    assert t.term.kind == Some(Events.Result) ==> !t.term.retryable by {
      ResultNeverRetryable(log, from, s.idx);
    }
  }

  lemma {:induction false} ResultNeverRetryable(log: seq<StreamEvent>, from: nat, k: nat)
    requires k <= |log|
    ensures TermAfter(log, from, k).retryable ==> TermAfter(log, from, k).kind == Some(Error)
  {
    if from < k {
      ResultNeverRetryable(log, from, k - 1);
    }
  }

  lemma {:induction false} SelectsEnd(turn: Turn, log: seq<StreamEvent>, enc: Encoder, stop: bool, from: nat,
                                      picks: seq<Select>)
    requires from <= |log|
    ensures Ends(log, stop, from, Selects(turn, log, enc, stop, from, picks))
  {
    if picks != [] {
      var s := Selects(turn, log, enc, stop, from, picks[..|picks| - 1]);
      SelectsEnd(turn, log, enc, stop, from, picks[..|picks| - 1]);
      if s.outcome == Streaming {
        match picks[|picks| - 1]
        case ClientGone =>
        case Stolen =>
        case Keepalive =>
        case DrainElapsed =>
          if s.drainArmed && s.term.kind == Some(Events.Result) {
            var i :| from <= i < s.idx && log[i].kind == Events.Result;
            assert IsResult(log[i]);
            ResultTerm(log, from, s.idx);
          }
        case Next =>
          if s.idx < |log| {
            WriteTracks(turn, log, enc, stop, from, s);
          } else {
            CloseTracks(turn, log, stop, from, s);
          }
      }
    }
  }

  lemma {:induction false} ResultTerm(log: seq<StreamEvent>, from: nat, k: nat)
    requires k <= |log|
    ensures TermAfter(log, from, k).kind == Some(Events.Result) ==> TermAfter(log, from, k) == RESULT_TERMINAL
  {
    if from < k {
      ResultTerm(log, from, k - 1);
    }
  }

  /** The loop's terminal against the events it saw. */
  lemma {:induction false} TermAfterSeen(log: seq<StreamEvent>, from: nat, k: nat)
    requires from <= k <= |log|
    ensures var t := TermAfter(log, from, k);
            && (t.kind == None <==>
                  !HasTerminalIn(log, from, k) && forall i :: from <= i < k ==> !IsRetryableError(log[i]))
            && (t.retryable ==> exists i :: from <= i < k && IsRetryableError(log[i]))
            && (t.kind.Some? && !t.retryable ==> HasTerminalIn(log, from, k))
            && (t.kind == Some(Events.Result) ==> HasResult(log))
            && (t.kind == Some(Error) && !t.retryable ==> HasFinalError(log))
            && t.kind in {None, Some(Events.Result), Some(Error)}
  {
    if from < k {
      TermAfterSeen(log, from, k - 1);
      var ev := log[k - 1];
      assert HasTerminalIn(log, from, k) <==> HasTerminalIn(log, from, k - 1) || IsTerminal(ev);
      assert IsResult(ev) ==> HasResult(log);
      assert IsFinalError(ev) ==> HasFinalError(log);
    }
  }

  /** A stream read to its end is retryable exactly when the whole relay holds a retryable error and
      no terminal, wherever the subscriber started. */
  lemma {:induction false} ClosedVerdict(log: seq<StreamEvent>, from: nat)
    requires from <= |log|
    ensures var term := Ensured(TermAfter(log, from, |log|), log);
            && (term.retryable <==> HasRetryableError(log) && !HasResult(log) && !HasFinalError(log))
            && (term.kind == Some(Events.Result) ==> HasResult(log))
            && term.kind.Some?
  {
    TermAfterSeen(log, from, |log|);
    var t := TermAfter(log, from, |log|);
    if t.retryable {
      var i :| from <= i < |log| && IsRetryableError(log[i]);
      assert HasRetryableError(log);
    }
    ResultNeverRetryable(log, from, |log|);
  }

  lemma {:induction false} HasTerminalSplits(log: seq<StreamEvent>)
    ensures HasTerminalIn(log, 0, |log|) <==> HasResult(log) || HasFinalError(log)
  {
    if HasTerminalIn(log, 0, |log|) {
      var i :| 0 <= i < |log| && IsTerminal(log[i]);
      assert IsResult(log[i]) || IsFinalError(log[i]);
    }
    if HasResult(log) {
      var i :| 0 <= i < |log| && IsResult(log[i]);
      assert IsTerminal(log[i]);
    }
    if HasFinalError(log) {
      var i :| 0 <= i < |log| && IsFinalError(log[i]);
      assert IsTerminal(log[i]);
    }
  }
}
