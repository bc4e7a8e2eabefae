/** The client's reader of an Anthropic event stream (wayfinder/bifrost_client.go). */
module BifrostClient {
  import opened Wrappers
  import opened Seqs
  import opened Strings
  import opened MessageStream

  /** A line of the body: a payload after `data: `, the `[DONE]` mark, or a line that is skipped (no
      `data: ` prefix, or not a JSON object). */
  datatype Line = DataLine(payload: Sse) | DoneLine | SkippedLine

  /** A tool call; the input is missing when there were no argument bytes or they did not decode. */
  datatype ToolCall<I> = ToolCall(id: string, name: string, input: Option<I>)

  datatype LLMResponse<I> = LLMResponse(content: string, toolCalls: seq<ToolCall<I>>, stopReason: string)

  datatype PendingTool = PendingTool(id: string, name: string, inputBuf: string)

  datatype Parser<I> = Parser(textParts: seq<string>, toolCalls: seq<ToolCall<I>>, current: Option<PendingTool>,
                              stopReason: string)

  function Fresh<I>(): Parser<I> {
    Parser([], [], None, "")
  }

  /** JSON decoding of a tool's arguments is a parameter. */
  type Decoder<I> = string -> Option<I>

  function Call<I>(decode: Decoder<I>, id: string, name: string, arguments: string): ToolCall<I> {
    ToolCall(id, name, if arguments != "" then decode(arguments) else None)
  }

  function Step<I>(decode: Decoder<I>, p: Parser<I>, ev: Sse): Parser<I> {
    match ev
    case BlockStart(_, ToolUseBlock(id, name)) => p.(current := Some(PendingTool(id, name, "")))
    case TextDelta(_, text) => if text == "" then p else p.(textParts := p.textParts + [text])
    case InputJsonDelta(_, partial) =>
      if p.current == None then p
      else p.(current := Some(p.current.value.(inputBuf := p.current.value.inputBuf + partial)))
    case BlockStop(_) =>
      if p.current == None then p
      else
        var t := p.current.value;
        p.(toolCalls := p.toolCalls + [Call(decode, t.id, t.name, t.inputBuf)], current := None)
    case MessageDelta(reason, _) => p.(stopReason := reason)
    case _ => p
  }

  function Steps<I>(decode: Decoder<I>, p: Parser<I>, evs: seq<Sse>): Parser<I> {
    if evs == [] then p else Step(decode, Steps(decode, p, evs[..|evs| - 1]), evs[|evs| - 1])
  }

  lemma {:induction false} StepsSnoc<I>(decode: Decoder<I>, p: Parser<I>, evs: seq<Sse>, ev: Sse)
    ensures Steps(decode, p, evs + [ev]) == Step(decode, Steps(decode, p, evs), ev)
  {
    Front(evs, ev);
  }

  lemma {:induction false} StepsAppend<I>(decode: Decoder<I>, p: Parser<I>, a: seq<Sse>, b: seq<Sse>)
    ensures Steps(decode, p, a + b) == Steps(decode, Steps(decode, p, a), b)
  {
    if b == [] {
      AppendNothing(a);
    } else {
      var front, last := b[..|b| - 1], b[|b| - 1];
      assert a + b == (a + front) + [last];
      StepsAppend(decode, p, a, front);
      StepsSnoc(decode, p, a + front, last);
    }
  }

  /** The payloads the parser acts on: those of the data lines before a `[DONE]`. */
  function Payloads(lines: seq<Line>): seq<Sse> {
    if lines == [] || lines[0].DoneLine? then []
    else (if lines[0].DataLine? then [lines[0].payload] else []) + Payloads(lines[1..])
  }

  function Parsed<I>(decode: Decoder<I>, evs: seq<Sse>): LLMResponse<I> {
    var p := Steps(decode, Fresh(), evs);
    LLMResponse(Concat(p.textParts), p.toolCalls, p.stopReason)
  }

  lemma {:induction false} PayloadsSkip(done: seq<Sse>, lines: seq<Line>, i: nat)
    requires i < |lines| && !lines[i].DoneLine?
    ensures done + Payloads(lines[i..]) ==
            (if lines[i].DataLine? then done + [lines[i].payload] else done) + Payloads(lines[i + 1..])
  {
    assert lines[i..][1..] == lines[i + 1..];
  }

  /** parseSSEStream; `deltas` is what onDelta was called with. */
  method ParseSSEStream<I>(decode: Decoder<I>, lines: seq<Line>) returns (r: LLMResponse<I>, deltas: seq<string>)
    ensures r == Parsed(decode, Payloads(lines))
    ensures Concat(deltas) == r.content && forall i :: 0 <= i < |deltas| ==> deltas[i] != ""
  {
    var textParts: seq<string>, toolCalls: seq<ToolCall<I>>, stopReason := [], [], "";
    var currentTool: Option<PendingTool> := None;
    deltas := [];
    ghost var done: seq<Sse> := [];
    var i := 0;
    while i < |lines|
      invariant i <= |lines| && done + Payloads(lines[i..]) == Payloads(lines)
      invariant Parser(textParts, toolCalls, currentTool, stopReason) == Steps(decode, Fresh(), done)
      invariant deltas == textParts && forall i :: 0 <= i < |deltas| ==> deltas[i] != ""
    {
      if lines[i].DoneLine? {
        break;
      }
      PayloadsSkip(done, lines, i);
      if lines[i].DataLine? {
        var ev := lines[i].payload;
        StepsSnoc(decode, Fresh(), done, ev);
        done := done + [ev];
        match ev {
          case BlockStart(_, ToolUseBlock(id, name)) =>
            currentTool := Some(PendingTool(id, name, ""));
          case TextDelta(_, text) =>
            if text != "" {
              textParts := textParts + [text];
              deltas := deltas + [text];
            }
          case InputJsonDelta(_, partial) =>
            assert currentTool.Some? ==> currentTool.value.inputBuf + "" == currentTool.value.inputBuf;
            if currentTool.Some? && partial != "" {
              currentTool := Some(currentTool.value.(inputBuf := currentTool.value.inputBuf + partial));
            }
          case BlockStop(_) =>
            if currentTool.Some? {
              var t := currentTool.value;
              toolCalls := toolCalls + [Call(decode, t.id, t.name, t.inputBuf)];
              currentTool := None;
            }
          case MessageDelta(reason, _) =>
            stopReason := reason;
          case _ =>
        }
      }
      i := i + 1;
    }
    assert done + Payloads(lines[i..]) == done;
    r := LLMResponse(Concat(textParts), toolCalls, stopReason);
  }
}
