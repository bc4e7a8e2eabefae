/** How the connection a turn is started on ends, and how a follow does, as the client reads it: with a
    completion mark or without. */
module TurnEnds {
  import opened Wrappers
  import opened Seqs
  import opened Events
  import opened ClientStream
  import opened Terminal
  import opened Attach
  import opened Verdict
  import opened TurnLoop
  import opened Resume
  import opened TurnAttempt
  import opened TurnStream

  /** The loop of the turn is over with its last attempt. */
  predicate Over(o: Own) {
    !(RetryDue(o.turn, o.attempts(o.launches), o.launches) && o.launches < o.maxAttempts)
  }

  /** Whether the turn's own connection ends with a completion mark: a launch that fails first, or a send that
      fails, leaves none, nor does a subscriber that was lost before the session was suspended. It ends with
      one after a result, a final error, retries that ran out, a wait that was cancelled, a request for
      user input, and a later launch that failed. */
  predicate Marked(turn: Turn, a: Attempt, n: nat) {
    match a
    case LaunchFails(_) => n > 1
    case SendFails(_) => false
    case Streams(log, enc, picks, waited, _) =>
      !(LostSubscriber(Selects(turn, log, enc, true, 0, picks)) && waited == SessionSuspended)
  }

  // ---------------------------------------------------------------- the attachment

  /** The tail of an attachment, read after its last event. */
  lemma {:induction false} TailEnds(s: ClientState, turn: Turn, log: seq<StreamEvent>, end: AttachState)
    requires s.phase == Reading && s.pending == map[]
    requires end.outcome == Closed ==> end.term.kind in {Some(Events.Result), Some(Error)}
    ensures var t := Run(s, Tail(turn, log, end));
            t.pending == map[] && t.phase == if end.outcome == Suspended then ReceivedDone else Reading
  {
    if end.outcome == Suspended {
      RunTwo(s, DoneLine, OtherLine);
    } else if Tail(turn, log, end) == [] {
      RunNothing(s);
    } else {
      UnsplitEvent(s, |log|, SyntheticEvent(turn, end.term));
      assert CoreWire(|log|, [SyntheticEvent(turn, end.term)]) == Tail(turn, log, end);
    }
  }

  /** An attachment read whole. */
  lemma {:induction false} AttachmentEnds(turn: Turn, a: Attempt, t: ClientState)
    returns (u: ClientState)
    requires a.Streams? && LogicalLog(a.log) && Between(t, t.lastID)
    ensures u == Run(t, AttemptLines(turn, a)) && u.pending == map[]
    ensures u.phase == if Selects(turn, a.log, a.enc, true, 0, a.picks).outcome == Suspended then ReceivedDone
                       else Reading
  {
    var end := Selects(turn, a.log, a.enc, true, 0, a.picks);
    SelectsShape(turn, a.log, a.enc, true, 0, a.picks);
    var meta, body := [DataLine(MetaEvent(turn))], Body(turn, a.log, a.enc, 0, Reached(a.log, end));
    RunCore(t, AttemptLines(turn, a));
    RunAppend(t, meta + body, Tail(turn, a.log, end));
    RunAppend(t, meta, body);
    RunTwo(t, meta[0], OtherLine);
    UnnumberedStep(t, MetaEvent(turn));
    BodyRun(Step(t, meta[0]), turn, a.log, a.enc, 0, Reached(a.log, end));
    TailEnds(Run(Step(t, meta[0]), body), turn, a.log, end);
    u := Run(t, AttemptLines(turn, a));
  }

  // ---------------------------------------------------------------- what runTurn writes after it

  lemma {:induction false} DonesEnd(s: ClientState)
    requires s.phase == Reading
    ensures Run(s, DONE_LINES) == s.(phase := ReceivedDone)
  {
    RunTwo(s, DoneLine, OtherLine);
  }

  lemma {:induction false} ErrorAndDonesEnd(s: ClientState, turn: Turn, content: string)
    requires s.phase == Reading && s.pending == map[]
    ensures var t := Run(s, ErrorLines(turn, content) + DONE_LINES);
            t.phase == ReceivedDone && t.pending == map[]
  {
    var ev := ClassifiedEvent(turn, content);
    UnnumberedLines(ev);
    RunAppend(s, ErrorLines(turn, content), DONE_LINES);
    RunTwo(s, DataLine(ev), OtherLine);
    DonesEnd(Run(s, ErrorLines(turn, content)));
  }

  /** The lines of the last attempt, read after the earlier ones. */
  lemma {:induction false} LastGroupEnds(o: Own, t: ClientState, past: Past)
    requires LegalAttempt(o, o.launches) && 1 <= o.launches && Over(o) && HasGiven(t, past)
    ensures var u := Run(t, Group(o, o.launches));
            && u.pending == map[] && u.phase != ClientStream.Failed
            && (u.phase == ReceivedDone <==> Marked(o.turn, o.attempts(o.launches), o.launches))
  {
    var a, n := o.attempts(o.launches), o.launches;
    var after := AfterAttempt(o.turn, a, n, o.maxAttempts, o.tags);
    RunAppend(t, AttemptLines(o.turn, a), after);
    RunNothing(t);
    match a
    case LaunchFails(e) =>
      if n > 1 {
        ErrorAndDonesEnd(t, o.turn, o.tags.launch(e));
      }
    case SendFails(_) =>
    case Streams(_, _, _, _, _) =>
      var u := AttachmentEnds(o.turn, a, t);
      StreamEnds(o, u);
  }

  /** What runTurn adds after an attachment that was streamed. */
  lemma {:induction false} StreamEnds(o: Own, u: ClientState)
    requires LegalAttempt(o, o.launches) && 1 <= o.launches && Over(o) && o.attempts(o.launches).Streams?
    requires u.pending == map[]
    requires u.phase == if End(o, o.launches).outcome == Suspended then ReceivedDone else Reading
    ensures var v := Run(u, AfterAttempt(o.turn, o.attempts(o.launches), o.launches, o.maxAttempts, o.tags));
            && v.pending == map[] && v.phase != ClientStream.Failed
            && (v.phase == ReceivedDone <==> Marked(o.turn, o.attempts(o.launches), o.launches))
  {
    var a := o.attempts(o.launches);
    var after := AfterAttempt(o.turn, a, o.launches, o.maxAttempts, o.tags);
    TriesAgainExactly(o.turn, a, o.launches);
    LostIsNotSuspended(o.turn, a.log, a.enc, a.picks);
    if End(o, o.launches).outcome == Closed {
      ClosedEnd(o.turn, a);
    }
    RunNothing(u);
    if u.phase == ReceivedDone {
      RunStops(u, after);
    } else if after == DONE_LINES {
      DonesEnd(u);
    } else if after != [] {
      ErrorAndDonesEnd(u, o.turn, o.tags.terminal(StreamVerdict(o.turn, a).0.content));
    }
  }

  // ---------------------------------------------------------------- the whole connection

  /** Exactly when a client that reads the whole of a turn's own connection is told that it is complete: if and
      only if the last attempt marked it. Otherwise, and only then, the stream ends with an error for
      want of the mark; it never ends with chunks missing. */
  lemma {:induction false} MarkedExactly(o: Own)
    requires Legal(o) && Over(o)
    ensures var u := ReadTurn(o, |Lines(o, o.launches)|);
            && u.pending == map[]
            && (u.phase == ReceivedDone <==> Marked(o.turn, o.attempts(o.launches), o.launches))
            && (Finish(u, false).emitted == u.emitted <==> Marked(o.turn, o.attempts(o.launches), o.launches))
  {
    LastGroupRead(o);
    LinesMore(o, o.launches);
    RunOn(Lines(o, o.launches - 1), Group(o, o.launches));
    Whole(Lines(o, o.launches));
    FinishExactly(ReadTurn(o, |Lines(o, o.launches)|), false);
  }

  lemma {:induction false} LastGroupRead(o: Own)
    requires Legal(o) && Over(o)
    ensures var u := Run(FromStart(Lines(o, o.launches - 1)), Group(o, o.launches));
            && u.pending == map[] && u.phase != ClientStream.Failed
            && (u.phase == ReceivedDone <==> Marked(o.turn, o.attempts(o.launches), o.launches))
  {
    EarlierAttemptsRun(o, o.launches - 1);
    assert LegalAttempt(o, o.launches);
    LastGroupEnds(o, FromStart(Lines(o, o.launches - 1)), Given(o, o.launches - 1));
  }

  /** What an error that runTurn writes itself says: the failure of the launch, or the last error of a relay
      that holds retryable errors alone, each as it is tagged. */
  lemma {:induction false} OwnErrorSays(o: Own, n: nat)
    requires Ended(o.turn, o.attempts(n)) && WritesError(o, n)
    ensures match o.attempts(n)
            case LaunchFails(e) => ErrorContent(o, n) == o.tags.launch(e)
            case SendFails(_) => false
            case Streams(log, _, _, _, _) =>
              OnlyRetryableError(log) && ErrorContent(o, n) == o.tags.terminal(ErrorOf(log))
  {
    var a := o.attempts(n);
    if a.Streams? {
      SelectsEnd(o.turn, a.log, a.enc, true, 0, a.picks);
      if End(o, n).outcome == Closed {
        ClosedEnd(o.turn, a);
      }
    }
  }

  // ---------------------------------------------------------------- follows

  /** While a stream is not closed its terminal is that of the events it has taken. */
  lemma {:induction false} TermOfTaken(turn: Turn, log: seq<StreamEvent>, enc: Encoder, from: nat, picks: seq<Select>)
    requires from <= |log|
    ensures var s := Selects(turn, log, enc, true, from, picks);
            s.outcome != Closed ==> from <= s.idx <= |log| && s.term == TermAfter(log, from, s.idx)
  {
    if picks != [] {
      var s := Selects(turn, log, enc, true, from, picks[..|picks| - 1]);
      TermOfTaken(turn, log, enc, from, picks[..|picks| - 1]);
      SelectsEnd(turn, log, enc, true, from, picks[..|picks| - 1]);
      if s.outcome == Streaming {
        StepTakes(turn, log, enc, from, s, picks[|picks| - 1]);
      }
    }
  }

  lemma {:induction false} StepTakes(turn: Turn, log: seq<StreamEvent>, enc: Encoder, from: nat, s: AttachState,
                                     pick: Select)
    requires s.outcome == Streaming && !s.suspended && from <= s.idx <= |log| && s.term == TermAfter(log, from, s.idx)
    ensures var t := SelectStep(turn, log, enc, true, s, pick);
            t.outcome != Closed ==> from <= t.idx <= |log| && t.term == TermAfter(log, from, t.idx)
  {
    if pick.Next? && s.idx < |log| {
      WriteAdvances(turn, enc, true, s, log[s.idx]);
    }
  }

  predicate TookOutcome(log: seq<StreamEvent>, from: nat, k: nat) {
    exists i :: from <= i < k && i < |log| && (log[i].kind == Events.Result || log[i].kind == Error)
  }

  lemma {:induction false} TermTellsOutcome(log: seq<StreamEvent>, from: nat, k: nat)
    requires from <= k <= |log|
    ensures TermAfter(log, from, k).kind.Some? <==> TookOutcome(log, from, k)
  {
    if from < k {
      TermTellsOutcome(log, from, k - 1);
      assert TookOutcome(log, from, k) <==>
             TookOutcome(log, from, k - 1) || log[k - 1].kind == Events.Result || log[k - 1].kind == Error;
    }
  }

  /** Exactly when a client that reads the whole of a follow is told that it is complete: if and only if the
      relay was read to its end, or the turn asked for user input, or a result or an error was among the
      events taken. */
  lemma {:induction false} FollowMarkedExactly(turn: Turn, log: seq<StreamEvent>, enc: Encoder, from: nat,
                                               picks: seq<Select>)
    requires LogicalLog(log) && from <= |log|
    ensures var end := Selects(turn, log, enc, true, from, picks);
            var u := Run(START, FollowLines(end));
            && u.pending == map[]
            && (Finish(u, false).emitted == u.emitted <==>
                  end.outcome == Closed || end.outcome == Suspended || TookOutcome(log, from, end.idx))
  {
    var end := Selects(turn, log, enc, true, from, picks);
    SelectsShape(turn, log, enc, true, from, picks);
    CoreOfFollowLines(turn, log, enc, from, end);
    RunCore(START, FollowLines(end));
    var meta, body := [DataLine(MetaEvent(turn))], Body(turn, log, enc, from, Reached(log, end));
    RunAppend(START, meta, body + FollowTail(turn, log, end));
    RunTwo(START, meta[0], OtherLine);
    OpenedIsFresh(turn);
    RunAppend(Opened(turn), body, FollowTail(turn, log, end));
    BodyRun(Opened(turn), turn, log, enc, from, Reached(log, end));
    FollowTailEnds(Run(Opened(turn), body), turn, log, end);
    if end.outcome != Closed {
      TermOfTaken(turn, log, enc, from, picks);
      TermTellsOutcome(log, from, end.idx);
    }
    FinishExactly(Run(START, FollowLines(end)), false);
  }

  lemma {:induction false} FollowTailEnds(s: ClientState, turn: Turn, log: seq<StreamEvent>, end: AttachState)
    requires s.phase == Reading && s.pending == map[]
    requires end.outcome == Closed ==> end.term.kind in {Some(Events.Result), Some(Error)}
    ensures var t := Run(s, FollowTail(turn, log, end));
            && t.pending == map[] && t.phase != ClientStream.Failed
            && (t.phase == ReceivedDone <==> end.outcome == Suspended || end.term.kind.Some?)
  {
    TailEnds(s, turn, log, end);
    var mark := if end.term.kind.Some? then [DoneLine] else [];
    RunAppend(s, Tail(turn, log, end), mark);
    var t := Run(s, Tail(turn, log, end));
    RunNothing(t);
    if t.phase == ReceivedDone {
      RunStops(t, mark);
    } else if mark != [] {
      RunTwo(t, DoneLine, OtherLine);
    }
  }
}
