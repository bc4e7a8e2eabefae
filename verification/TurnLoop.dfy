/** The attempt loop of one turn (runTurn and streamSSERelay in agentservice/handler_retry.go), on
    the SSE path. */
module TurnLoop {
  import opened Wrappers
  import opened Events
  import opened Terminal
  import opened ClientStream
  import opened Attach
  import opened Verdict

  const DRAIN_TIMEOUT_CONTENT := "client drain timeout"
  const DEFAULT_MAX_ATTEMPTS := 3

  /** How waiting for a detached turn ended: waitDetached reads the registry and the session. */
  datatype Waited = Unregistered | SessionCompleted | SessionError(message: string) | SessionSuspended

  /** What the world does with one attempt: the launch or the send fails, or the agent's relay ends up
      holding `log` and the subscriber's loop makes the choices `picks`; `waited` matters only if the
      subscriber is lost, `cancelled` only if the loop waits before another attempt. */
  datatype Attempt =
    | LaunchFails(launchError: string)
    | SendFails(sendError: string)
    | Streams(log: seq<StreamEvent>, enc: Encoder, picks: seq<Select>, waited: Waited, cancelled: bool)

  datatype TurnEnd =
    | LaunchFailed(error: string)
    | SendFailed(error: string)
    | AwaitsUser
    | Completed
    | Cancelled
    | Exhausted(content: string)
    | Failed(content: string)

  function ProcessRetryLimit(agentName: string, configured: int): int {
    if agentName != "codex" then 1
    else if configured <= 0 then DEFAULT_MAX_ATTEMPTS
    else configured
  }

  /** Only one agent is given more than one attempt: as many as configured, or three. */
  lemma {:induction false} LimitExactly(agentName: string, configured: int)
    ensures agentName != "codex" ==> ProcessRetryLimit(agentName, configured) == 1
    ensures agentName == "codex" && configured > 0 ==> ProcessRetryLimit(agentName, configured) == configured
    ensures agentName == "codex" && configured <= 0 ==> ProcessRetryLimit(agentName, configured) == 3
  {
  }

  function WaitDetached(w: Waited): (StreamTerminal, bool) {
    match w
    case Unregistered => (ErrorTerminal(DRAIN_TIMEOUT_CONTENT), false)
    case SessionCompleted => (RESULT_TERMINAL, false)
    case SessionError(message) => (ErrorTerminal(message), false)
    case SessionSuspended => (NO_TERMINAL, true)
  }

  predicate LostSubscriber(s: AttachState) {
    s.outcome == Detached || s.outcome == WriteFailed
  }

  /** streamSSERelay: the terminal of an attempt and whether it is suspended. */
  function StreamVerdict(turn: Turn, a: Attempt): (StreamTerminal, bool)
    requires a.Streams?
  {
    var s := Selects(turn, a.log, a.enc, true, 0, a.picks);
    if LostSubscriber(s) && !s.suspended then WaitDetached(a.waited) else (s.term, s.suspended)
  }

  /** The subscriber's loop of the attempt has ended. */
  predicate Ended(turn: Turn, a: Attempt) {
    a.Streams? ==> Selects(turn, a.log, a.enc, true, 0, a.picks).outcome != Streaming
  }

  /** What the code decides after attempt number `n`, leaving the limit aside. */
  predicate TriesAgain(turn: Turn, a: Attempt, n: nat) {
    match a
    case LaunchFails(_) => false
    case SendFails(_) => 1 < n
    case Streams(_, _, _, _, cancelled) =>
      var (term, suspended) := StreamVerdict(turn, a);
      !suspended && term.kind != Some(Events.Result) && term.retryable && !cancelled
  }

  /** What the attempt's relay says, whatever the order of its events. */
  predicate OnlyRetryableError(log: seq<StreamEvent>) {
    HasRetryableError(log) && !HasResult(log) && !HasFinalError(log) && !HasUserInput(log)
  }

  /** When another attempt is due, in terms of the relay alone. */
  predicate RetryDue(turn: Turn, a: Attempt, n: nat) {
    match a
    case LaunchFails(_) => false
    case SendFails(_) => 1 < n
    case Streams(log, enc, picks, _, cancelled) =>
      && !LostSubscriber(Selects(turn, log, enc, true, 0, picks))
      && OnlyRetryableError(log)
      && !cancelled
  }

  /** Relaunch is decided exactly: an attempt whose subscriber stayed is tried again if and only if
      its relay holds a retryable error, no result, no final error and no request for user input. */
  lemma {:induction false} TriesAgainExactly(turn: Turn, a: Attempt, n: nat)
    requires Ended(turn, a)
    ensures TriesAgain(turn, a, n) <==> RetryDue(turn, a, n)
  {
    if a.Streams? {
      var s := Selects(turn, a.log, a.enc, true, 0, a.picks);
      SelectsEnd(turn, a.log, a.enc, true, 0, a.picks);
      LostIsNotSuspended(turn, a.log, a.enc, a.picks);
      match s.outcome
      case Closed =>
        ClosedVerdict(a.log, 0);
        var t: AttachState :|
          && Tracks(a.log, true, 0, t) && t.outcome == Streaming && t.idx == |a.log|
          && s.term == Ensured(t.term, a.log) && s.suspended == t.suspended
          && (s.idx == |a.log| + 1 <==> !t.terminalWritten && !s.term.retryable)
          && |a.log| <= s.idx <= |a.log| + 1;
        assert !HasUserInput(a.log);
      case Drained =>
      case Suspended =>
      case _ =>
    }
  }

  /** A subscriber is never lost on the event that suspends the turn: such an event is not split. */
  lemma {:induction false} LostIsNotSuspended(turn: Turn, log: seq<StreamEvent>, enc: Encoder, picks: seq<Select>)
    ensures var s := Selects(turn, log, enc, true, 0, picks);
            LostSubscriber(s) || s.outcome == Streaming || s.outcome == Drained ==> !s.suspended
  {
    if picks != [] {
      LostIsNotSuspended(turn, log, enc, picks[..|picks| - 1]);
    }
  }

  /** How the turn ends with attempt `n`, when no further attempt is made. */
  function EndWith(turn: Turn, a: Attempt, n: nat, maxAttempts: int): TurnEnd {
    match a
    case LaunchFails(e) => LaunchFailed(e)
    case SendFails(e) => SendFailed(e)
    case Streams(_, _, _, _, cancelled) =>
      var (term, suspended) := StreamVerdict(turn, a);
      if suspended then AwaitsUser
      else if term.kind == Some(Events.Result) then Completed
      else if term.retryable && n < maxAttempts then Cancelled
      else if term.retryable then Exhausted(term.content)
      else TurnEnd.Failed(term.content)
  }

  // ---------------------------------------------------------------- what the ends mean

  /** The last event of a relay that is a result or an error. */
  function LastOutcome(log: seq<StreamEvent>): Option<StreamEvent> {
    if log == [] then None
    else
      var last := log[|log| - 1];
      if last.kind == Events.Result || last.kind == Error then Some(last) else LastOutcome(log[..|log| - 1])
  }

  /** A relay read to its end says that the turn completed. */
  predicate SaysCompleted(log: seq<StreamEvent>) {
    match LastOutcome(log)
    case Some(last) => last.kind == Events.Result || (last.retryable && HasResult(log))
    case None => false
  }

  /** What it says went wrong otherwise. */
  function ErrorOf(log: seq<StreamEvent>): string {
    match LastOutcome(log)
    case Some(last) =>
      if last.retryable && HasFinalError(log) then LastContent(log, IsFinalError) else last.content
    case None => STREAM_ENDED_WITHOUT_TERMINAL
  }

  /** The terminal that the last outcome leaves. */
  lemma {:induction false} TermIsLastOutcome(log: seq<StreamEvent>, k: nat)
    requires k <= |log|
    ensures TermAfter(log, 0, k) ==
            match LastOutcome(log[..k])
            case None => NO_TERMINAL
            case Some(last) =>
              if last.kind == Events.Result then RESULT_TERMINAL
              else if last.retryable then RetryableTerminal(last.content) else ErrorTerminal(last.content)
    ensures LastOutcome(log[..k]).Some? ==> LastOutcome(log[..k]).value.kind in {Events.Result, Error}
  {
    if k > 0 {
      TermIsLastOutcome(log, k - 1);
      assert log[..k][..k - 1] == log[..k - 1];
    }
  }

  lemma {:induction false} NoOutcome(log: seq<StreamEvent>)
    requires LastOutcome(log) == None
    ensures !HasResult(log) && !HasFinalError(log) && !HasRetryableError(log)
  {
    if log != [] {
      var front := log[..|log| - 1];
      NoOutcome(front);
      forall i | 0 <= i < |log|
        ensures !IsResult(log[i]) && !IsFinalError(log[i]) && !IsRetryableError(log[i])
      {
        if i < |front| {
          assert front[i] == log[i];
        }
      }
    }
  }

  lemma {:induction false} LastOutcomeIsThere(log: seq<StreamEvent>)
    requires LastOutcome(log).Some?
    ensures LastOutcome(log).value in log
  {
    if LastOutcome(log).value != log[|log| - 1] {
      LastOutcomeIsThere(log[..|log| - 1]);
    }
  }

  /** The verdict on a relay read to its end. */
  lemma {:induction false} ClosedSays(log: seq<StreamEvent>)
    ensures var term := Ensured(TermAfter(log, 0, |log|), log);
            && (term.kind == Some(Events.Result) <==> SaysCompleted(log))
            && (term.kind != Some(Events.Result) ==> term.kind == Some(Error) && term.content == ErrorOf(log))
  {
    TermIsLastOutcome(log, |log|);
    assert log[..|log|] == log;
    if LastOutcome(log) == None {
      NoOutcome(log);
    } else {
      LastOutcomeIsThere(log);
      var last := LastOutcome(log).value;
      var i :| 0 <= i < |log| && log[i] == last;
      assert IsResult(log[i]) || IsFinalError(log[i]) || IsRetryableError(log[i]);
    }
  }

  /** How a turn ends with an attempt that is the last. A subscriber that was lost leaves it to the session; a
      request for user input suspends the turn; a drained stream had a result; and a relay read to its
      end is decided by its last result or error, where a retryable error gives way to any other. */
  lemma {:induction false} EndMeans(turn: Turn, a: Attempt, n: nat, maxAttempts: int)
    requires Ended(turn, a) && !(RetryDue(turn, a, n) && n < maxAttempts)
    ensures EndWith(turn, a, n, maxAttempts) ==
            match a
            case LaunchFails(e) => LaunchFailed(e)
            case SendFails(e) => SendFailed(e)
            case Streams(log, enc, picks, waited, _) =>
              match Selects(turn, log, enc, true, 0, picks).outcome
              case Suspended => AwaitsUser
              case Drained => Completed
              case Closed =>
                if SaysCompleted(log) then Completed
                else if !OnlyRetryableError(log) then TurnEnd.Failed(ErrorOf(log))
                else if n < maxAttempts then Cancelled
                else Exhausted(ErrorOf(log))
              case _ =>
                match waited
                case Unregistered => TurnEnd.Failed("client drain timeout")
                case SessionCompleted => Completed
                case SessionError(message) => TurnEnd.Failed(message)
                case SessionSuspended => AwaitsUser
  {
    if !a.Streams? {
      return;
    }
    var end := Selects(turn, a.log, a.enc, true, 0, a.picks);
    SelectsEnd(turn, a.log, a.enc, true, 0, a.picks);
    LostIsNotSuspended(turn, a.log, a.enc, a.picks);
    if end.outcome == Closed {
      ClosedEnd(turn, a);
    }
  }

  /** An attempt whose relay was read to its end. */
  lemma {:induction false} ClosedEnd(turn: Turn, a: Attempt)
    requires a.Streams? && Selects(turn, a.log, a.enc, true, 0, a.picks).outcome == Closed
    ensures var (term, suspended) := StreamVerdict(turn, a);
            && !suspended
            && (term.kind == Some(Events.Result) <==> SaysCompleted(a.log))
            && (term.kind != Some(Events.Result) ==> term.content == ErrorOf(a.log))
            && (term.retryable <==> HasRetryableError(a.log) && !HasResult(a.log) && !HasFinalError(a.log))
            && (OnlyRetryableError(a.log) <==> term.retryable)
  {
    var end := Selects(turn, a.log, a.enc, true, 0, a.picks);
    SelectsEnd(turn, a.log, a.enc, true, 0, a.picks);
    var t: AttachState :|
      && Tracks(a.log, true, 0, t) && t.outcome == Streaming && t.idx == |a.log|
      && end.term == Ensured(t.term, a.log) && end.suspended == t.suspended
      && (end.idx == |a.log| + 1 <==> !t.terminalWritten && !end.term.retryable)
      && |a.log| <= end.idx <= |a.log| + 1;
    ClosedSays(a.log);
    ClosedVerdict(a.log, 0);
    assert !HasUserInput(a.log);
  }

  // ---------------------------------------------------------------- what the turn's own connection carries

  /** How error texts are tagged: those of an attempt's terminal, and those of a failed launch. */
  datatype Tags = Tags(terminal: string -> string, launch: string -> string)

  const DONE_LINES := [DoneLine, OtherLine]

  /** emitClassifiedSSE: an error without an id. */
  function ErrorLines(turn: Turn, content: string): seq<Line> {
    WireLines(None, [ClassifiedEvent(turn, content)])
  }

  function ClassifiedEvent(turn: Turn, content: string): StreamEvent {
    Blank(Error).(content := content, turnID := turn.turnID, correlationID := turn.correlationID)
  }

  /** The lines of an attempt's attachment. */
  function AttemptLines(turn: Turn, a: Attempt): seq<Line> {
    if a.Streams? then Selects(turn, a.log, a.enc, true, 0, a.picks).lines else []
  }

  /** The attempt's terminal is retryable and no attempts remain. */
  predicate RunsOut(turn: Turn, a: Attempt, n: nat, maxAttempts: int) {
    a.Streams? &&
      var (term, suspended) := StreamVerdict(turn, a);
      !suspended && term.kind != Some(Events.Result) && term.retryable && n >= maxAttempts
  }

  /** What runTurn writes itself after attempt `n`. */
  function AfterAttempt(turn: Turn, a: Attempt, n: nat, maxAttempts: int, tags: Tags): seq<Line> {
    match a
    case LaunchFails(e) => if n == 1 then [] else ErrorLines(turn, tags.launch(e)) + DONE_LINES
    case SendFails(_) => []
    case Streams(_, _, _, _, cancelled) =>
      var (term, suspended) := StreamVerdict(turn, a);
      if suspended then []
      else if RunsOut(turn, a, n, maxAttempts) then ErrorLines(turn, tags.terminal(term.content)) + DONE_LINES
      else if term.kind != Some(Events.Result) && term.retryable && !cancelled then []
      else DONE_LINES
  }

  /** All lines of the connection after `n` attempts. */
  function TurnLines(turn: Turn, attempts: nat -> Attempt, n: nat, maxAttempts: int, tags: Tags): seq<Line> {
    if n == 0 then []
    else
      TurnLines(turn, attempts, n - 1, maxAttempts, tags) +
      (AttemptLines(turn, attempts(n)) + AfterAttempt(turn, attempts(n), n, maxAttempts, tags))
  }

  /** One attempt of runTurn: the end of the turn if it was the last, and the lines it wrote. */
  method RunAttempt(turn: Turn, a: Attempt, n: nat, maxAttempts: int, tags: Tags)
    returns (end: Option<TurnEnd>, lines: seq<Line>)
    requires 1 <= n <= maxAttempts && Ended(turn, a)
    ensures lines == AttemptLines(turn, a) + AfterAttempt(turn, a, n, maxAttempts, tags)
    ensures end == None <==> RetryDue(turn, a, n) && n < maxAttempts
    ensures end.Some? ==> end.value == EndWith(turn, a, n, maxAttempts)
  {
    TriesAgainExactly(turn, a, n);
    match a
    case LaunchFails(e) =>
      lines := if n == 1 then [] else ErrorLines(turn, tags.launch(e)) + DONE_LINES;
      end := Some(LaunchFailed(e));
    case SendFails(e) =>
      lines := [];
      end := if n == 1 || n >= maxAttempts then Some(SendFailed(e)) else None;
    case Streams(log, enc, picks, waited, cancelled) =>
      var w := new ResponseWriter();
      var s := w.AttachSSE(turn, log, enc, 0, true, picks);
      lines := w.lines;
      var term, suspended := s.term, s.suspended;
      if (s.outcome == Detached || s.outcome == WriteFailed) && !s.suspended {
        var (waitTerm, waitSuspended) := WaitDetached(waited);
        term, suspended := waitTerm, waitSuspended;
      }
      if suspended {
        return Some(AwaitsUser), lines + [];
      }
      if term.kind == Some(Events.Result) {
        return Some(Completed), lines + DONE_LINES;
      }
      if term.retryable && n < maxAttempts {
        if cancelled {
          return Some(Cancelled), lines + DONE_LINES;
        }
        return None, lines + [];
      }
      if term.retryable {
        return Some(Exhausted(term.content)), lines + (ErrorLines(turn, tags.terminal(term.content)) + DONE_LINES);
      }
      return Some(TurnEnd.Failed(term.content)), lines + DONE_LINES;
  }

  /** runTurn: the number of launches, how the turn ended, and the lines of its connection. Every launch
      before the last was due a retry, and the last one was not, or the attempts had run out. */
  method RunTurn(turn: Turn, agentName: string, configured: int, attempts: nat -> Attempt, tags: Tags)
    returns (launches: nat, end: TurnEnd, lines: seq<Line>)
    requires forall n :: Ended(turn, attempts(n))
    ensures 1 <= launches <= ProcessRetryLimit(agentName, configured)
    ensures forall n :: 1 <= n < launches ==> RetryDue(turn, attempts(n), n)
    ensures launches < ProcessRetryLimit(agentName, configured) ==> !RetryDue(turn, attempts(launches), launches)
    ensures end == EndWith(turn, attempts(launches), launches, ProcessRetryLimit(agentName, configured))
    ensures lines == TurnLines(turn, attempts, launches, ProcessRetryLimit(agentName, configured), tags)
  {
    var maxAttempts := ProcessRetryLimit(agentName, configured);
    var attempt := 1;
    lines := [];
    while true
      invariant 1 <= attempt <= maxAttempts
      invariant forall n :: 1 <= n < attempt ==> RetryDue(turn, attempts(n), n)
      invariant lines == TurnLines(turn, attempts, attempt - 1, maxAttempts, tags)
      decreases maxAttempts - attempt
    {
      var done, written := RunAttempt(turn, attempts(attempt), attempt, maxAttempts, tags);
      lines := lines + written;
      if done.Some? {
        return attempt, done.value, lines;
      }
      attempt := attempt + 1;
    }
  }
}
