/** One subscriber's stream of a relay (attachSSE in agentservice/handler_retry.go and
    writeSSEWireEventsID in agentservice/handler.go). */
module Attach {
  import opened Wrappers
  import opened Seqs
  import opened Events
  import opened Decimal
  import opened Chunking
  import opened Terminal
  import opened ClientStream

  /** What the execution stamps on events: its ids, and the finalised usage that a result carries. */
  datatype Turn = Turn(turnID: string, correlationID: string, resultUsage: Option<TokenUsage>)

  /** The encoder's lengths and the UUIDs drawn for the chunks of event `i` at a chunk size. */
  datatype Encoder = Encoder(json: JsonLength, ids: nat -> nat -> ChunkId)

  /** What the select statement of the loop picks next. `Next` receives from the relay's channel:
      the next buffered event, or the closing of the channel after the last one. */
  datatype Select = Next | Keepalive | DrainElapsed | ClientGone | Stolen

  /** How the loop ended. attachSSE reports both Detached and WriteFailed as detached. */
  datatype Outcome = Streaming | Closed | Suspended | Drained | Detached | WriteFailed

  datatype AttachState = AttachState(
    idx: nat,
    term: StreamTerminal,
    suspended: bool,
    terminalWritten: bool,
    drainArmed: bool,
    lines: seq<Line>,
    outcome: Outcome)

  function Stamp(turn: Turn, ev: StreamEvent): StreamEvent {
    var stamped := ev.(turnID := turn.turnID, correlationID := turn.correlationID);
    if ev.kind == Events.Result && turn.resultUsage.Some? then stamped.(usage := turn.resultUsage) else stamped
  }

  /** The JSON of an event: the retryable mark is not encoded. */
  function Marshal(ev: StreamEvent): StreamEvent {
    ev.(retryable := false)
  }

  function SplitAt(enc: Encoder, i: nat, ev: StreamEvent): Result<seq<StreamEvent>, SplitError> {
    Split(ev, DEFAULT_MAX_SSE_DATA_LINE_BYTES, enc.json, enc.ids(i))
  }

  function PartLines(id: Option<nat>, ev: StreamEvent): seq<Line> {
    if id.Some? then [IdLine(Itoa(id.value)), DataLine(Marshal(ev)), OtherLine]
    else [DataLine(Marshal(ev)), OtherLine]
  }

  /** Every wire part of one logical event carries the same id line, or none without an id. */
  function WireLines(id: Option<nat>, wire: seq<StreamEvent>): seq<Line> {
    if wire == [] then []
    else WireLines(id, wire[..|wire| - 1]) + PartLines(id, wire[|wire| - 1])
  }

  lemma {:induction false} WireLinesMore(before: seq<Line>, id: Option<nat>, wire: seq<StreamEvent>, i: nat)
    requires i < |wire|
    ensures before + WireLines(id, wire[..i + 1]) == before + WireLines(id, wire[..i]) + PartLines(id, wire[i])
  {
    OneMore(wire, i);
    Regroup(before, WireLines(id, wire[..i]), PartLines(id, wire[i]));
  }

  lemma {:induction false} PartIsWritten(before: seq<Line>, id: Option<nat>, ev: StreamEvent)
    ensures before + PartLines(id, ev) ==
            (if id.Some? then before + [IdLine(Itoa(id.value))] else before) + [DataLine(Marshal(ev)), OtherLine]
  {
  }

  function TerminalAfter(term: StreamTerminal, ev: StreamEvent): StreamTerminal {
    if IsRetryableError(ev) then RetryableTerminal(ev.content)
    else if ev.kind == Events.Result then RESULT_TERMINAL
    else if ev.kind == Error then ErrorTerminal(ev.content)
    else term
  }

  /** What the loop notes about an event before it writes it: the id it takes, the terminal and whether it
      suspends the turn, which a retryable error never does. */
  function Noted(s: AttachState, ev: StreamEvent): AttachState {
    s.(idx := s.idx + 1, term := TerminalAfter(s.term, ev), suspended := s.suspended || ev.kind == UserInputRequired)
  }

  /** The lines of an event that could be split, and the flags they set. */
  function Sent(s: AttachState, id: nat, ev: StreamEvent, wire: seq<StreamEvent>): AttachState {
    s.(lines := s.lines + WireLines(Some(id), wire),
       terminalWritten := s.terminalWritten || ev.kind == Events.Result || ev.kind == Error,
       drainArmed := s.drainArmed || ev.kind == Events.Result)
  }

  /** writeEvent, and what the loop does with its answer. A retryable error takes an id but is not
      written; an event that cannot be split detaches the subscriber before any of it is written. */
  function WriteEvent(turn: Turn, enc: Encoder, stopOnUserInput: bool, s: AttachState,
                      logged: StreamEvent): AttachState {
    var ev := Stamp(turn, logged);
    var t := Noted(s, ev);
    if IsRetryableError(ev) then t
    else
      match SplitAt(enc, s.idx, ev)
      case Err(_) => t.(outcome := WriteFailed)
      case Ok(wire) =>
        var u := Sent(t, s.idx, ev, wire);
        if u.suspended && stopOnUserInput then u.(lines := u.lines + [DoneLine, OtherLine], outcome := Suspended)
        else u
  }

  predicate NeedsSynthetic(s: AttachState) {
    && !s.terminalWritten
    && s.term.kind.Some?
    && !(s.term.kind == Some(Error) && s.term.retryable)
  }

  function SyntheticEvent(turn: Turn, term: StreamTerminal): StreamEvent
    requires term.kind.Some?
  {
    Blank(term.kind.value).(content := term.content, turnID := turn.turnID, correlationID := turn.correlationID)
  }

  /** The channel has closed: the relay decides the outcome, and a terminal that this stream has not
      carried is synthesised with the next id. */
  function CloseStream(turn: Turn, log: seq<StreamEvent>, s: AttachState): AttachState {
    var t := s.(term := Ensured(s.term, log), outcome := Closed);
    if NeedsSynthetic(t) then
      t.(idx := s.idx + 1, terminalWritten := true,
         lines := s.lines + WireLines(Some(s.idx), [SyntheticEvent(turn, t.term)]))
    else t
  }

  function SelectStep(turn: Turn, log: seq<StreamEvent>, enc: Encoder, stopOnUserInput: bool, s: AttachState,
                      pick: Select)
    : AttachState
  {
    if s.outcome != Streaming then s
    else
      match pick
      case ClientGone => s.(outcome := Detached)
      case Stolen => s.(outcome := Detached)
      case Keepalive => s.(lines := s.lines + [OtherLine, OtherLine])
      case DrainElapsed =>
        if !s.drainArmed then s
        else if s.term.kind == Some(Events.Result) then s.(outcome := Drained)
        else s.(drainArmed := false)
      case Next =>
        if s.idx < |log| then WriteEvent(turn, enc, stopOnUserInput, s, log[s.idx])
        else CloseStream(turn, log, s)
  }

  function MetaEvent(turn: Turn): StreamEvent {
    Blank(System).(content := "turn context", turnID := turn.turnID, correlationID := turn.correlationID)
  }

  function Attached(turn: Turn, from: nat): AttachState {
    AttachState(from, NO_TERMINAL, false, false, false, WireLines(None, [MetaEvent(turn)]), Streaming)
  }

  function Selects(turn: Turn, log: seq<StreamEvent>, enc: Encoder, stopOnUserInput: bool, from: nat,
                   picks: seq<Select>)
    : AttachState
  {
    if picks == [] then Attached(turn, from)
    else
      SelectStep(turn, log, enc, stopOnUserInput,
                 Selects(turn, log, enc, stopOnUserInput, from, picks[..|picks| - 1]), picks[|picks| - 1])
  }

  // ---------------------------------------------------------------- the loops

  class ResponseWriter {
    var lines: seq<Line>

    constructor ()
      ensures lines == []
    {
      lines := [];
    }

    method WriteSSEWireEventsID(ev: StreamEvent, logicalID: Option<nat>, enc: Encoder, ids: nat -> ChunkId)
      returns (error: Option<SplitError>)
      modifies this
      ensures match Split(ev, DEFAULT_MAX_SSE_DATA_LINE_BYTES, enc.json, ids)
              case Err(e) => error == Some(e) && lines == old(lines)
              case Ok(wire) => error == None && lines == old(lines) + WireLines(logicalID, wire)
    {
      var split := SplitStreamEventForSSE(ev, DEFAULT_MAX_SSE_DATA_LINE_BYTES, enc.json, ids);
      if split.Err? {
        return Some(split.error);
      }
      var wire := split.value;
      for i := 0 to |wire|
        invariant lines == old(lines) + WireLines(logicalID, wire[..i])
      {
        WireLinesMore(old(lines), logicalID, wire, i);
        PartIsWritten(lines, logicalID, wire[i]);
        if logicalID.Some? {
          lines := lines + [IdLine(Itoa(logicalID.value))];
        }
        lines := lines + [DataLine(Marshal(wire[i])), OtherLine];
      }
      Whole(wire);
      return None;
    }

    /** writeEvent. */
    method WriteLoggedEvent(turn: Turn, enc: Encoder, stopOnUserInput: bool, s: AttachState, logged: StreamEvent)
      returns (t: AttachState)
      requires s.outcome == Streaming && s.lines == lines
      modifies this
      ensures t == WriteEvent(turn, enc, stopOnUserInput, s, logged) && lines == t.lines
    {
      var ev := Stamp(turn, logged);
      var logicalID := s.idx;
      t := NoteEvent(s, ev);
      if ev.kind == Error && ev.retryable {
        return t;
      }
      var failed := WriteSSEWireEventsID(ev, Some(logicalID), enc, enc.ids(logicalID));
      if failed.Some? {
        return t.(outcome := WriteFailed);
      }
      t := t.(lines := lines, terminalWritten := t.terminalWritten || ev.kind == Events.Result || ev.kind == Error,
              drainArmed := t.drainArmed || ev.kind == Events.Result);
      if t.suspended && stopOnUserInput {
        lines := lines + [DoneLine, OtherLine];
        t := t.(lines := lines, outcome := Suspended);
      }
    }

    method NoteEvent(s: AttachState, ev: StreamEvent) returns (t: AttachState)
      ensures t == Noted(s, ev)
    {
      t := s.(idx := s.idx + 1);
      if ev.kind == Error && ev.retryable {
        return t.(term := RetryableTerminal(ev.content));
      }
      if ev.kind == Events.Result {
        t := t.(term := RESULT_TERMINAL);
      }
      if ev.kind == Error {
        t := t.(term := ErrorTerminal(ev.content));
      }
      if ev.kind == UserInputRequired {
        t := t.(suspended := true);
      }
    }

    method WriteSyntheticTerminal(turn: Turn, enc: Encoder, s: AttachState) returns (t: AttachState)
      requires s.lines == lines
      requires s.term.kind != Some(ToolResult)
      modifies this
      ensures t == if NeedsSynthetic(s)
                   then s.(idx := s.idx + 1, terminalWritten := true,
                           lines := s.lines + WireLines(Some(s.idx), [SyntheticEvent(turn, s.term)]))
                   else s
      ensures lines == t.lines
    {
      if s.terminalWritten || s.term.kind == None {
        return s;
      }
      if s.term.kind == Some(Error) && s.term.retryable {
        return s;
      }
      var ev := SyntheticEvent(turn, s.term);
      var written := WriteSSEWireEventsID(ev, Some(s.idx), enc, enc.ids(s.idx));
      return s.(idx := s.idx + 1, terminalWritten := true, lines := lines);
    }

    /** One choice of the select statement. */
    method SelectOne(turn: Turn, log: seq<StreamEvent>, enc: Encoder, stopOnUserInput: bool, s: AttachState,
                     pick: Select)
      returns (t: AttachState)
      requires s.outcome == Streaming && s.lines == lines
      modifies this
      ensures t == SelectStep(turn, log, enc, stopOnUserInput, s, pick) && lines == t.lines
    {
      match pick
      case ClientGone => t := s.(outcome := Detached);
      case Stolen => t := s.(outcome := Detached);
      case Keepalive =>
        lines := lines + [OtherLine, OtherLine];
        t := s.(lines := lines);
      case DrainElapsed =>
        t := s;
        if s.drainArmed {
          t := if s.term.kind == Some(Events.Result) then s.(outcome := Drained) else s.(drainArmed := false);
        }
      case Next =>
        if s.idx < |log| {
          t := WriteLoggedEvent(turn, enc, stopOnUserInput, s, log[s.idx]);
        } else {
          EnsuredKind(s.term, log);
          t := s.(term := Ensured(s.term, log), outcome := Closed);
          t := WriteSyntheticTerminal(turn, enc, t);
        }
    }

    /** attachSSE: runs the loop over what its select statement picks. The writer holds the lines of
        this attachment only. */
    method AttachSSE(turn: Turn, log: seq<StreamEvent>, enc: Encoder, from: nat, stopOnUserInput: bool,
                     picks: seq<Select>)
      returns (s: AttachState)
      requires lines == []
      modifies this
      ensures s == Selects(turn, log, enc, stopOnUserInput, from, picks) && lines == s.lines
    {
      var error := WriteSSEWireEventsID(MetaEvent(turn), None, enc, enc.ids(0));
      s := AttachState(from, NO_TERMINAL, false, false, false, lines, Streaming);
      var i := 0;
      while i < |picks| && s.outcome == Streaming
        invariant 0 <= i <= |picks|
        invariant s == Selects(turn, log, enc, stopOnUserInput, from, picks[..i])
        invariant s.lines == lines
      {
        OneMore(picks, i);
        s := SelectOne(turn, log, enc, stopOnUserInput, s, picks[i]);
        i := i + 1;
      }
      SelectsStop(turn, log, enc, stopOnUserInput, from, picks, i);
    }
  }

  lemma {:induction false} EnsuredKind(term: StreamTerminal, log: seq<StreamEvent>)
    ensures Ensured(term, log).kind in {Some(Events.Result), Some(Error)}
  {
  }

  lemma {:induction false} SelectsStop(turn: Turn, log: seq<StreamEvent>, enc: Encoder, stopOnUserInput: bool,
                                       from: nat, picks: seq<Select>, i: nat)
    requires i <= |picks|
    requires i == |picks| || Selects(turn, log, enc, stopOnUserInput, from, picks[..i]).outcome != Streaming
    ensures Selects(turn, log, enc, stopOnUserInput, from, picks)
         == Selects(turn, log, enc, stopOnUserInput, from, picks[..i])
    decreases |picks| - i
  {
    if i == |picks| {
      assert picks[..i] == picks;
    } else {
      OneMore(picks, i);
      SelectsStop(turn, log, enc, stopOnUserInput, from, picks, i + 1);
    }
  }
}
