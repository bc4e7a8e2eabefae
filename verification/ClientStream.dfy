/** The client's reading of a server-sent event stream (client/v1/stream.go). */
module ClientStream {
  import opened Wrappers
  import opened Seqs
  import opened Events
  import opened SseChunk

  /** One line of the stream as the scanner classifies it. A data line's JSON is the event it
      decodes to; `Other` is any line that the loop skips: blank, comment, or undecodable. */
  datatype Line =
    | IdLine(text: string)
    | DataLine(json: StreamEvent)
    | DoneLine
    | OtherLine

  datatype ClientEvent = ClientEvent(
    kind: Kind,
    text: string,
    toolName: string,
    toolInput: map<string, string>,
    turnID: string,
    correlationID: string,
    error: string,
    inputContent: string,
    promptID: string,
    choices: seq<string>,
    id: string,
    usage: Option<TokenUsage>)

  const NO_EVENT := ClientEvent(Text, "", "", map[], "", "", "", "", "", [], "", None)

  datatype Phase = Reading | ReceivedDone | Failed

  /** The variables of the reading loop. */
  datatype ClientState = ClientState(
    pendingID: string,
    lastID: string,
    turnID: string,
    pending: Pending,
    emitted: seq<ClientEvent>,
    phase: Phase)

  const START := ClientState("", "", "", map[], [], Reading)

  function ErrorEvent(message: string): ClientEvent {
    NO_EVENT.(kind := Error, error := message)
  }

  function ErrorText(e: ChunkError): string {
    match e
    case MissingChunkId => "tool_result_part missing chunk_id"
    case TotalMismatch => "tool_result_part total mismatch"
    case DuplicateIndex(_) => "duplicate chunk index"
    case UnknownChunkId => "unknown chunk_id"
    case MissingIndex(_) => "missing chunk index"
    case _ => "incomplete tool_result chunks"
  }

  /** The event a whole tool result becomes: only its name and its text are carried over. */
  function ToolResultEvent(toolName: string, text: string): ClientEvent {
    NO_EVENT.(kind := ToolResult, text := text, toolName := toolName)
  }

  /** The event any other payload becomes. */
  function PlainEvent(raw: StreamEvent): ClientEvent {
    var ev := NO_EVENT.(kind := raw.kind, text := raw.content, toolName := raw.toolName,
                        toolInput := raw.toolInput, turnID := raw.turnID,
                        correlationID := raw.correlationID, usage := raw.usage);
    if raw.kind == Error then ev.(error := raw.content)
    else if raw.kind == UserInputRequired then
      ev.(inputContent := raw.content, promptID := raw.promptID, choices := raw.choices)
    else ev
  }

  /** adoptID and the send on the channel: an id seen on the wire is given to the event and becomes
      the last id. */
  function Emit(s: ClientState, ev: ClientEvent): ClientState {
    if s.pendingID == "" then s.(emitted := s.emitted + [ev])
    else s.(emitted := s.emitted + [ev.(id := s.pendingID)], lastID := s.pendingID)
  }

  function Fail(s: ClientState, message: string): ClientState {
    s.(emitted := s.emitted + [ErrorEvent(message)], phase := Failed)
  }

  /** One iteration of the scanner loop. */
  function Step(s: ClientState, line: Line): ClientState {
    if s.phase != Reading then s
    else
      match line
      case OtherLine => s
      case IdLine(text) => s.(pendingID := text)
      case DoneLine => s.(phase := ReceivedDone)
      case DataLine(raw) =>
        if raw.kind == ToolResultPart then
          var (pending, error) := Added(s.pending, Part(raw.chunkID, raw.chunkIndex, raw.chunkTotal, raw.content));
          var t := s.(pending := pending);
          if error.Some? then Fail(t, ErrorText(error.value)) else t
        else if raw.kind == ToolResult then
          if raw.content == "" && raw.chunkID != "" then
            match Completed(s.pending, raw.chunkID)
            case Err(e) => Fail(s, ErrorText(e))
            case Ok(content) =>
              Emit(s.(pending := s.pending - {raw.chunkID}), ToolResultEvent(raw.toolName, content))
          else Emit(s, ToolResultEvent(raw.toolName, raw.content))
        else
          Emit(s.(turnID := if s.turnID == "" then raw.turnID else s.turnID), PlainEvent(raw))
  }

  function Run(s: ClientState, lines: seq<Line>): ClientState {
    if lines == [] then s else Step(Run(s, lines[..|lines| - 1]), lines[|lines| - 1])
  }

  /** What is emitted after the last line, none of it with an id. */
  function Finish(s: ClientState, readError: bool): ClientState {
    if s.phase == Failed then s
    else if s.pending != map[] then Fail(s, "incomplete tool_result chunks")
    else if readError then Fail(s, "stream read error")
    else if s.phase != ReceivedDone then Fail(s, "stream terminated unexpectedly without completion marker")
    else s
  }

  /** When a stream fails before its end, and how: on a part that is refused, or on the end of a chunk that
      cannot be completed, with one error that has no id. */
  lemma {:induction false} FailsExactly(s: ClientState, line: Line)
    requires s.phase == Reading
    ensures var t := Step(s, line);
            && (t.phase == Failed <==>
                  && line.DataLine?
                  && (var raw := line.json;
                      || (raw.kind == ToolResultPart
                          && (|| raw.chunkID == ""
                              || (raw.chunkID in s.pending && (s.pending[raw.chunkID].total != raw.chunkTotal
                                                               || raw.chunkIndex in s.pending[raw.chunkID].parts))))
                      || (raw.kind == ToolResult && raw.content == "" && raw.chunkID != ""
                          && Completed(s.pending, raw.chunkID).Err?)))
            && (t.phase == Failed ==>
                  && |t.emitted| == |s.emitted| + 1 && t.emitted[..|s.emitted|] == s.emitted
                  && t.emitted[|s.emitted|] == NO_EVENT.(kind := Error, error := t.emitted[|s.emitted|].error)
                  && t.lastID == s.lastID)
  {
    if line.DataLine? && line.json.kind == ToolResultPart {
      RefusedExactly(s.pending, Part(line.json.chunkID, line.json.chunkIndex, line.json.chunkTotal, line.json.content));
    }
  }

  /** How a stream ends: nothing is added to what was read exactly when it has failed already, or a completion
      mark was read and neither parts nor an error are left over; else one error without an id is. */
  lemma {:induction false} FinishExactly(s: ClientState, readError: bool)
    ensures Finish(s, readError).emitted == s.emitted <==>
            s.phase == Failed || (s.phase == ReceivedDone && s.pending == map[] && !readError)
    ensures Finish(s, readError).emitted == s.emitted
         || Finish(s, readError).emitted ==
            s.emitted + [ClientEvent(Error, "", "", map[], "", "",
                                     if s.pending != map[] then "incomplete tool_result chunks"
                                     else if readError then "stream read error"
                                     else "stream terminated unexpectedly without completion marker",
                                     "", "", [], "", None)]
    ensures Finish(s, readError).lastID == s.lastID && Finish(s, readError).turnID == s.turnID
  {
    assert forall e :: |s.emitted + [e]| != |s.emitted|;
  }

  /** The turn id of the first event read that has one; tool results do not tell it. */
  function FirstTurnID(lines: seq<Line>): string {
    if lines == [] then ""
    else if FirstTurnID(lines[..|lines| - 1]) != "" then FirstTurnID(lines[..|lines| - 1])
    else
      match lines[|lines| - 1]
      case DataLine(raw) => if raw.kind == ToolResult || raw.kind == ToolResultPart then "" else raw.turnID
      case _ => ""
  }

  /** A stream keeps the first turn id it reads, until it stops reading. */
  lemma {:induction false} TurnIDIsTheFirst(s: ClientState, lines: seq<Line>)
    requires Run(s, lines).phase == Reading
    ensures Run(s, lines).turnID == if s.turnID != "" then s.turnID else FirstTurnID(lines)
  {
    if lines != [] {
      TurnIDIsTheFirst(s, lines[..|lines| - 1]);
    }
  }

  lemma {:induction false} RunAppend(s: ClientState, a: seq<Line>, b: seq<Line>)
    ensures Run(s, a + b) == Run(Run(s, a), b)
  {
    if b == [] {
      AppendNothing(a);
    } else {
      FrontOfSum(a, b);
      RunAppend(s, a, b[..|b| - 1]);
    }
  }

  lemma {:induction false} RunStops(s: ClientState, lines: seq<Line>)
    requires s.phase != Reading
    ensures Run(s, lines) == s
  {
    if lines != [] {
      RunStops(s, lines[..|lines| - 1]);
    }
  }

  /** The lines that the loop does not skip. */
  function Core(lines: seq<Line>): seq<Line> {
    if lines == [] then []
    else
      var front, last := Core(lines[..|lines| - 1]), lines[|lines| - 1];
      if last == OtherLine then front else front + [last]
  }

  lemma {:induction false} RunCore(s: ClientState, lines: seq<Line>)
    ensures Run(s, Core(lines)) == Run(s, lines)
  {
    if lines != [] {
      var front, last := lines[..|lines| - 1], lines[|lines| - 1];
      RunCore(s, front);
      if last != OtherLine {
        assert (Core(front) + [last])[..|Core(front)|] == Core(front);
      }
    }
  }

  lemma {:induction false} CoreAppend(a: seq<Line>, b: seq<Line>)
    ensures Core(a + b) == Core(a) + Core(b)
  {
    if b == [] {
      AppendNothing(a);
    } else {
      FrontOfSum(a, b);
      CoreAppend(a, b[..|b| - 1]);
    }
  }

  /** Cutting a stream between two lines cuts its core. */
  lemma {:induction false} CoreOfPrefix(lines: seq<Line>, cut: nat)
    requires cut <= |lines|
    ensures Core(lines[..cut]) <= Core(lines)
  {
    CoreAppend(lines[..cut], lines[cut..]);
    assert lines[..cut] + lines[cut..] == lines;
  }

  // ---------------------------------------------------------------- the loop

  class Stream {
    var turnID: string
    var lastID: string

    constructor ()
      ensures turnID == "" && lastID == ""
    {
      turnID, lastID := "", "";
    }

    /** The goroutine of events(): reads the lines, then reports how the stream ended. */
    method Events(lines: seq<Line>, readError: bool) returns (emitted: seq<ClientEvent>)
      modifies this
      ensures var start := START.(turnID := old(turnID), lastID := old(lastID));
              var end := Finish(Run(start, lines), readError);
              emitted == end.emitted && turnID == end.turnID && lastID == end.lastID
    {
      ghost var start := START.(turnID := turnID, lastID := lastID);
      var assembler := new Assembler();
      var pendingID := "";
      var receivedDone := false;
      emitted := [];
      var i := 0;
      while i < |lines| && !receivedDone
        modifies this, assembler
        invariant 0 <= i <= |lines|
        invariant Run(start, lines[..i])
               == ClientState(pendingID, lastID, turnID, assembler.pending, emitted,
                              if receivedDone then ReceivedDone else Reading)
      {
        var line := lines[i];
        ghost var before := Run(start, lines[..i]);
        OneMore(lines, i);
        assert Run(start, lines[..i + 1]) == Step(before, line);
        i := i + 1;
        match line
        case OtherLine =>
        case IdLine(text) =>
          pendingID := text;
        case DoneLine =>
          receivedDone := true;
        case DataLine(raw) =>
          if raw.kind == ToolResultPart {
            var error := assembler.AddPart(Part(raw.chunkID, raw.chunkIndex, raw.chunkTotal, raw.content));
            if error.Some? {
              emitted := emitted + [ErrorEvent(ErrorText(error.value))];
              RestIgnored(start, lines, i);
              return;
            }
          } else {
            var ev := NO_EVENT;
            if raw.kind == ToolResult {
              ev := ToolResultEvent(raw.toolName, raw.content);
              if raw.content == "" && raw.chunkID != "" {
                var completed := assembler.Complete(raw.chunkID);
                if completed.Err? {
                  emitted := emitted + [ErrorEvent(ErrorText(completed.error))];
                  RestIgnored(start, lines, i);
                  return;
                }
                ev := ev.(text := completed.value);
              }
            } else {
              ev := PlainEvent(raw);
              if turnID == "" && raw.turnID != "" {
                turnID := raw.turnID;
              }
            }
            if pendingID != "" {
              ev := ev.(id := pendingID);
              lastID := pendingID;
            }
            emitted := emitted + [ev];
          }
      }
      RestIgnored(start, lines, i);
      var incomplete := assembler.FlushIncomplete();
      if incomplete.Some? {
        emitted := emitted + [ErrorEvent(ErrorText(incomplete.value))];
        return;
      }
      if readError {
        emitted := emitted + [ErrorEvent("stream read error")];
        return;
      }
      if !receivedDone {
        emitted := emitted + [ErrorEvent("stream terminated unexpectedly without completion marker")];
      }
    }
  }

  /** Once the loop has stopped, the remaining lines change nothing. */
  lemma {:induction false} RestIgnored(s: ClientState, lines: seq<Line>, i: nat)
    requires i <= |lines|
    requires i == |lines| || Run(s, lines[..i]).phase != Reading
    ensures Run(s, lines) == Run(s, lines[..i])
  {
    assert lines == lines[..i] + lines[i..];
    RunAppend(s, lines[..i], lines[i..]);
    if i < |lines| {
      RunStops(Run(s, lines[..i]), lines[i..]);
    }
  }
}
