/** Anthropic content blocks to Bifrost messages and back (llmgateway/anthropic/convert.go). */
module Convert {
  import opened Wrappers
  import opened Seqs
  import opened Strings

  datatype ImageSource = ImageSource(mediaType: string, data: string)

  /** A content block by its type; a type the code does not name is skipped. */
  datatype Block =
    | Text(text: string)
    | ToolUse(id: string, name: string, input: string)
    | ToolResult(toolUseID: string, content: string)
    | Image(source: Option<ImageSource>)
    | UnknownBlock

  datatype Content = StringContent(text: string) | BlockContent(blocks: seq<Block>) | Malformed

  datatype MessageType = FunctionCall | FunctionCallOutput | OtherMessage

  datatype ToolMessage = ToolMessage(callID: Option<string>, name: Option<string>, arguments: Option<string>,
                                     output: Option<string>)

  /** A Bifrost content block: its text, or its image. */
  datatype ContentPart = ContentPart(text: Option<string>, imageURL: Option<string>)

  datatype MessageContent = MessageContent(contentStr: Option<string>, contentBlocks: Option<seq<ContentPart>>)

  datatype Message = Message(kind: Option<MessageType>, role: Option<string>, content: Option<MessageContent>,
                             tool: Option<ToolMessage>)

  datatype ConvertError = BadContent | MissingSource | EmptyData

  function TextMessage(role: string, text: string): Message {
    Message(None, Some(role), Some(MessageContent(Some(text), None)), None)
  }

  function CallMessage(id: string, name: string, input: string): Message {
    Message(Some(FunctionCall), None, None, Some(ToolMessage(Some(id), Some(name), Some(input), None)))
  }

  function OutputMessage(id: string, output: string): Message {
    Message(Some(FunctionCallOutput), None, None, Some(ToolMessage(Some(id), None, None, Some(output))))
  }

  function ImageMessage(role: string, s: ImageSource): Message {
    var url := "data:" + s.mediaType + ";base64," + s.data;
    Message(None, Some(role), Some(MessageContent(None, Some([ContentPart(None, Some(url))]))), None)
  }

  // ---------------------------------------------------------------- forward

  /** An image block that the conversion refuses. */
  function Refusal(b: Block): Option<ConvertError> {
    if !b.Image? then None
    else if b.source == None then Some(MissingSource)
    else if b.source.value.data == "" then Some(EmptyData)
    else None
  }

  /** An image that carries data, or no image. */
  predicate HasData(b: Block) {
    b.Image? ==> b.source.Some? && b.source.value.data != ""
  }

  /** Exactly what is refused, and why: an image without a source, and one whose source has no data. */
  lemma {:induction false} RefusedExactly(b: Block)
    ensures Refusal(b) == None <==> HasData(b)
    ensures Refusal(b) == Some(MissingSource) <==> b == Image(None)
    ensures Refusal(b) == Some(EmptyData) <==> b.Image? && b.source.Some? && b.source.value.data == ""
    ensures Refusal(b) != Some(BadContent)
  {
  }

  function FlushText(role: string, result: seq<Message>, parts: seq<string>): seq<Message> {
    if parts == [] then result else result + [TextMessage(role, Concat(parts))]
  }

  datatype Progress = Progress(result: seq<Message>, parts: seq<string>)

  function Step(role: string, p: Progress, b: Block): Progress
    requires Refusal(b) == None
  {
    var flushed := FlushText(role, p.result, p.parts);
    match b
    case Text(text) => p.(parts := p.parts + [text])
    case ToolUse(id, name, input) => Progress(flushed + [CallMessage(id, name, input)], [])
    case ToolResult(id, content) => Progress(flushed + [OutputMessage(id, content)], [])
    case Image(source) => Progress(flushed + [ImageMessage(role, source.value)], [])
    case UnknownBlock => p
  }

  ghost predicate Convertible(blocks: seq<Block>) {
    forall i :: 0 <= i < |blocks| ==> Refusal(blocks[i]) == None
  }

  ghost function Steps(role: string, blocks: seq<Block>): Progress
    requires Convertible(blocks)
  {
    if blocks == [] then Progress([], [])
    else Step(role, Steps(role, blocks[..|blocks| - 1]), blocks[|blocks| - 1])
  }

  lemma {:induction false} StepsSnoc(role: string, blocks: seq<Block>, i: nat)
    requires i < |blocks| && Convertible(blocks[..i]) && Refusal(blocks[i]) == None
    ensures Convertible(blocks[..i + 1])
    ensures Steps(role, blocks[..i + 1]) == Step(role, Steps(role, blocks[..i]), blocks[i])
  {
    OneMore(blocks, i);
  }

  ghost function Forward(role: string, blocks: seq<Block>): seq<Message>
    requires Convertible(blocks)
  {
    var p := Steps(role, blocks);
    FlushText(role, p.result, p.parts)
  }

  /** convertMessage. It fails exactly on malformed content or on the first image block without data. */
  method ConvertMessage(role: string, content: Content) returns (r: Result<seq<Message>, ConvertError>)
    ensures match content
            case Malformed => r == Err(BadContent)
            case StringContent(text) => r == Ok([TextMessage(role, text)])
            case BlockContent(blocks) =>
              match r
              case Ok(messages) => Convertible(blocks) && messages == Forward(role, blocks)
              case Err(e) => exists i :: 0 <= i < |blocks| && Convertible(blocks[..i]) && Refusal(blocks[i]) == Some(e)
    ensures content.BlockContent? ==> (r.Ok? <==> forall b <- content.blocks :: HasData(b))
  {
    if content.StringContent? {
      return Ok([TextMessage(role, content.text)]);
    }
    if content.Malformed? {
      return Err(BadContent);
    }
    var blocks := content.blocks;
    var result: seq<Message>, textParts: seq<string> := [], [];
    for i := 0 to |blocks|
      invariant Convertible(blocks[..i]) && Steps(role, blocks[..i]) == Progress(result, textParts)
    {
      var b := blocks[i];
      RefusedExactly(b);
      assert b in blocks;
      if Refusal(b) == None {
        StepsSnoc(role, blocks, i);
      }
      if !b.Text? && !b.UnknownBlock? && |textParts| > 0 {
        result := result + [TextMessage(role, Concat(textParts))];
        textParts := [];
      }
      match b {
        case Text(text) =>
          textParts := textParts + [text];
        case ToolUse(id, name, input) =>
          result := result + [CallMessage(id, name, input)];
        case ToolResult(id, out) =>
          result := result + [OutputMessage(id, out)];
        case Image(source) =>
          if source == None {
            return Err(MissingSource);
          }
          if source.value.data == "" {
            return Err(EmptyData);
          }
          result := result + [ImageMessage(role, source.value)];
        case UnknownBlock =>
      }
    }
    Whole(blocks);
    forall b | b in blocks
      ensures HasData(b)
    {
      RefusedExactly(b);
    }
    if |textParts| > 0 {
      result := result + [TextMessage(role, Concat(textParts))];
    }
    return Ok(result);
  }

  // ---------------------------------------------------------------- what the messages are

  predicate IsText(b: Block) {
    b.Text? || b.UnknownBlock?
  }

  predicate AnyText(blocks: seq<Block>) {
    exists i :: 0 <= i < |blocks| && blocks[i].Text?
  }

  lemma {:induction false} OnlyCollected(role: string, blocks: seq<Block>)
    requires Convertible(blocks) && forall i :: 0 <= i < |blocks| ==> IsText(blocks[i])
    ensures var p := Steps(role, blocks);
            p.result == [] && (p.parts != [] <==> AnyText(blocks)) && Concat(p.parts) == AllText(blocks)
  {
    if blocks != [] {
      var front, last := blocks[..|blocks| - 1], blocks[|blocks| - 1];
      OnlyCollected(role, front);
      assert AnyText(blocks) <==> AnyText(front) || last.Text?;
      if last.Text? {
        ConcatSnoc(Steps(role, front).parts, last.text);
      } else {
        assert AllText(front) + "" == AllText(front);
      }
    }
  }

  /** A run of text becomes one message of the role with all its text, and none without a text block. */
  lemma {:induction false} TextBecomesOneMessage(role: string, blocks: seq<Block>)
    requires Convertible(blocks) && forall i :: 0 <= i < |blocks| ==> IsText(blocks[i])
    ensures Forward(role, blocks) ==
            if !AnyText(blocks) then []
            else [Message(None, Some(role), Some(MessageContent(Some(AllText(blocks)), None)), None)]
  {
    OnlyCollected(role, blocks);
  }

  /** The message that any other block becomes: a call without a role, an output without a role or a name, or
      an image of the role as a data URL. */
  function OwnMessage(role: string, b: Block): Message
    requires !IsText(b) && Refusal(b) == None
  {
    match b
    case ToolUse(id, name, input) =>
      Message(Some(FunctionCall), None, None, Some(ToolMessage(Some(id), Some(name), Some(input), None)))
    case ToolResult(id, output) =>
      Message(Some(FunctionCallOutput), None, None, Some(ToolMessage(Some(id), None, None, Some(output))))
    case Image(Some(source)) =>
      Message(None, Some(role),
              Some(MessageContent(None, Some([ContentPart(None, Some("data:" + source.mediaType + ";base64,"
                                                                     + source.data))]))), None)
  }

  lemma {:induction false} StepsAfter(role: string, a: seq<Block>, b: Block, c: seq<Block>)
    requires Convertible(a) && Convertible(c) && !IsText(b) && Refusal(b) == None
    ensures Convertible(a + [b] + c)
    ensures var p := Steps(role, c);
            Steps(role, a + [b] + c) == Progress(Forward(role, a) + [OwnMessage(role, b)] + p.result, p.parts)
  {
    var made := Forward(role, a) + [OwnMessage(role, b)];
    if c == [] {
      AppendNothing(a + [b]);
      Front(a, b);
      AppendNothing(made);
    } else {
      var front, last := c[..|c| - 1], c[|c| - 1];
      FrontOfSum(a + [b], c);
      StepsAfter(role, a, b, front);
      StepAppends(role, made, Steps(role, front), last);
    }
  }

  lemma {:induction false} StepAppends(role: string, made: seq<Message>, p: Progress, b: Block)
    requires Refusal(b) == None
    ensures var q := Step(role, p, b);
            Step(role, Progress(made + p.result, p.parts), b) == Progress(made + q.result, q.parts)
  {
    var f := FlushText(role, p.result, p.parts);
    Regroup(made, p.result, [TextMessage(role, Concat(p.parts))]);
    match b
    case Text(_) =>
    case ToolUse(id, name, input) => Regroup(made, f, [CallMessage(id, name, input)]);
    case ToolResult(id, content) => Regroup(made, f, [OutputMessage(id, content)]);
    case Image(source) => Regroup(made, f, [ImageMessage(role, source.value)]);
    case UnknownBlock =>
  }

  /** A block that is not text separates the messages before it from those after it; between them there is
      its own. With `TextBecomesOneMessage` this determines every message. */
  lemma {:induction false} BlockSeparates(role: string, a: seq<Block>, b: Block, c: seq<Block>)
    requires Convertible(a) && Convertible(c) && !IsText(b) && Refusal(b) == None
    ensures Convertible(a + [b] + c)
    ensures Forward(role, a + [b] + c) == Forward(role, a) + [OwnMessage(role, b)] + Forward(role, c)
  {
    StepsAfter(role, a, b, c);
    var p := Steps(role, c);
    Regroup(Forward(role, a) + [OwnMessage(role, b)], p.result, [TextMessage(role, Concat(p.parts))]);
  }

  // ---------------------------------------------------------------- back

  function OrEmpty(s: Option<string>): string {
    if s.Some? then s.value else ""
  }

  function PartTexts(parts: seq<ContentPart>): seq<Block> {
    if parts == [] then []
    else
      var last := parts[|parts| - 1];
      PartTexts(parts[..|parts| - 1]) + (if last.text.Some? then [Text(last.text.value)] else [])
  }

  function BackOne(m: Message): seq<Block> {
    if m.kind == Some(FunctionCall) && m.tool.Some? then
      [ToolUse(OrEmpty(m.tool.value.callID), OrEmpty(m.tool.value.name), OrEmpty(m.tool.value.arguments))]
    else if m.content == None then []
    else if m.content.value.contentStr.Some? then [Text(m.content.value.contentStr.value)]
    else if m.content.value.contentBlocks.Some? then PartTexts(m.content.value.contentBlocks.value)
    else []
  }

  /** The block of a call: fields that are missing are empty. */
  lemma {:induction false} CallComesBack(m: Message)
    requires m.kind == Some(FunctionCall) && m.tool.Some?
    ensures BackOne(m) == [ToolUse(if m.tool.value.callID.Some? then m.tool.value.callID.value else "",
                                   if m.tool.value.name.Some? then m.tool.value.name.value else "",
                                   if m.tool.value.arguments.Some? then m.tool.value.arguments.value else "")]
  {
  }

  function Back(messages: seq<Message>): seq<Block> {
    if messages == [] then [] else Back(messages[..|messages| - 1]) + BackOne(messages[|messages| - 1])
  }

  /** convertBifrostOutputToContentBlocks. */
  method ConvertOutput(m: Message) returns (blocks: seq<Block>)
    ensures blocks == BackOne(m)
  {
    if m.kind == Some(FunctionCall) && m.tool.Some? {
      var t := m.tool.value;
      return [ToolUse(OrEmpty(t.callID), OrEmpty(t.name), OrEmpty(t.arguments))];
    }
    blocks := [];
    if m.content.Some? {
      if m.content.value.contentStr.Some? {
        return [Text(m.content.value.contentStr.value)];
      }
      if m.content.value.contentBlocks.Some? {
        var parts := m.content.value.contentBlocks.value;
        for i := 0 to |parts|
          invariant blocks == PartTexts(parts[..i])
        {
          OneMore(parts, i);
          if parts[i].text.Some? {
            blocks := blocks + [Text(parts[i].text.value)];
          }
        }
        Whole(parts);
      }
    }
  }

  /** The content loop of ConvertFromBifrost. */
  method ConvertFromBifrost(output: seq<Message>) returns (content: seq<Block>)
    ensures content == Back(output)
  {
    content := [];
    for i := 0 to |output|
      invariant content == Back(output[..i])
    {
      OneMore(output, i);
      var blocks := ConvertOutput(output[i]);
      content := content + blocks;
    }
    Whole(output);
  }

  // ---------------------------------------------------------------- the round trip

  /** The list ends inside a run of text; unknown blocks do not end one. */
  predicate InRun(blocks: seq<Block>) {
    if blocks == [] then false
    else if blocks[|blocks| - 1].UnknownBlock? then InRun(blocks[..|blocks| - 1])
    else blocks[|blocks| - 1].Text?
  }

  function ExtendLast(blocks: seq<Block>, text: string): seq<Block> {
    if blocks != [] && blocks[|blocks| - 1].Text?
    then blocks[..|blocks| - 1] + [Text(blocks[|blocks| - 1].text + text)]
    else blocks + [Text(text)]
  }

  /** The text and tool_use blocks, with each run of text joined into one. */
  function Joined(blocks: seq<Block>): seq<Block> {
    if blocks == [] then []
    else
      var front, last := blocks[..|blocks| - 1], blocks[|blocks| - 1];
      match last
      case Text(text) => if InRun(front) then ExtendLast(Joined(front), text) else Joined(front) + [Text(text)]
      case ToolUse(_, _, _) => Joined(front) + [last]
      case _ => Joined(front)
  }

  lemma {:induction false} JoinedSnoc(front: seq<Block>, last: Block)
    requires last.ToolUse? || (last.Text? && !InRun(front))
    ensures Joined(front + [last]) == Joined(front) + [last]
  {
    Front(front, last);
  }

  lemma {:induction false} BackSnoc(messages: seq<Message>, m: Message)
    ensures Back(messages + [m]) == Back(messages) + BackOne(m)
  {
    Front(messages, m);
  }

  /** What the blocks so far mean: the messages made, then the text still collected. */
  function BackSoFar(p: Progress): seq<Block> {
    Back(p.result) + (if p.parts == [] then [] else [Text(Concat(p.parts))])
  }

  lemma {:induction false} BackFlushed(role: string, p: Progress)
    ensures Back(FlushText(role, p.result, p.parts)) == BackSoFar(p)
  {
    if p.parts != [] {
      BackSnoc(p.result, TextMessage(role, Concat(p.parts)));
    } else {
      assert BackSoFar(p) == Back(p.result);
    }
  }

  lemma {:induction false} ImageIsSilent(role: string, s: ImageSource)
    ensures BackOne(ImageMessage(role, s)) == []
  {
    var parts := ImageMessage(role, s).content.value.contentBlocks.value;
    assert parts[..0] == [] && PartTexts(parts[..0]) == [];
  }

  lemma {:induction false} MadeMessage(role: string, p: Progress, m: Message)
    ensures BackSoFar(Progress(FlushText(role, p.result, p.parts) + [m], [])) == BackSoFar(p) + BackOne(m)
  {
    BackFlushed(role, p);
    BackSnoc(FlushText(role, p.result, p.parts), m);
  }

  lemma {:induction false} CollectedText(p: Progress, text: string)
    ensures BackSoFar(p.(parts := p.parts + [text])) ==
            if p.parts == [] then BackSoFar(p) + [Text(text)] else ExtendLast(BackSoFar(p), text)
  {
    ConcatSnoc(p.parts, text);
    assert "" + text == text;
  }

  lemma {:induction false} StepMeans(role: string, p: Progress, b: Block)
    requires Refusal(b) == None
    ensures var q := Step(role, p, b);
            match b
            case Text(text) =>
              q.parts != [] &&
              BackSoFar(q) == (if p.parts == [] then BackSoFar(p) + [Text(text)] else ExtendLast(BackSoFar(p), text))
            case ToolUse(_, _, _) => q.parts == [] && BackSoFar(q) == BackSoFar(p) + [b]
            case UnknownBlock => q == p
            case _ => q.parts == [] && BackSoFar(q) == BackSoFar(p)
  {
    match b {
      case Text(text) =>
        CollectedText(p, text);
      case ToolUse(id, name, input) =>
        MadeMessage(role, p, CallMessage(id, name, input));
      case ToolResult(id, content) =>
        MadeMessage(role, p, OutputMessage(id, content));
      case Image(source) =>
        MadeMessage(role, p, ImageMessage(role, source.value));
        ImageIsSilent(role, source.value);
      case UnknownBlock =>
    }
  }

  lemma {:induction false} StepsMean(role: string, blocks: seq<Block>)
    requires Convertible(blocks)
    ensures BackSoFar(Steps(role, blocks)) == Joined(blocks)
    ensures Steps(role, blocks).parts != [] <==> InRun(blocks)
  {
    if blocks != [] {
      var front, last := blocks[..|blocks| - 1], blocks[|blocks| - 1];
      StepsMean(role, front);
      StepMeans(role, Steps(role, front), last);
    }
  }

  /** For every list of blocks that converts: converting to messages and back gives the text and
      tool_use blocks in order, with ids, names and raw arguments, each run of text joined. */
  lemma {:induction false} RoundTrip(role: string, blocks: seq<Block>)
    requires Convertible(blocks)
    ensures Back(Forward(role, blocks)) == Joined(blocks)
  {
    StepsMean(role, blocks);
    BackFlushed(role, Steps(role, blocks));
  }

  // ---------------------------------------------------------------- what joining means

  ghost predicate NoAdjacentText(blocks: seq<Block>) {
    forall i :: 0 <= i < |blocks| - 1 ==> !(blocks[i].Text? && blocks[i + 1].Text?)
  }

  ghost predicate OnlyTextAndTools(blocks: seq<Block>) {
    forall i :: 0 <= i < |blocks| ==> blocks[i].Text? || blocks[i].ToolUse?
  }

  lemma {:induction false} JoinedRuns(blocks: seq<Block>)
    requires OnlyTextAndTools(blocks)
    ensures OnlyTextAndTools(Joined(blocks)) && NoAdjacentText(Joined(blocks))
    ensures InRun(blocks) <==> Joined(blocks) != [] && Joined(blocks)[|Joined(blocks)| - 1].Text?
  {
    if blocks != [] {
      JoinedRuns(blocks[..|blocks| - 1]);
    }
  }

  /** On text and tool_use blocks alone, a list without adjacent text comes back as it was. */
  lemma {:induction false} JoinedFixed(blocks: seq<Block>)
    requires OnlyTextAndTools(blocks) && NoAdjacentText(blocks)
    ensures Joined(blocks) == blocks
  {
    if blocks != [] {
      var front, last := blocks[..|blocks| - 1], blocks[|blocks| - 1];
      assert NoAdjacentText(front);
      JoinedFixed(front);
      JoinedRuns(front);
      assert InRun(front) ==> blocks[|front| - 1].Text?;
      JoinedSnoc(front, last);
      FrontAndLast(blocks);
    }
  }

  /** All the text of a list of blocks. */
  function AllText(blocks: seq<Block>): string {
    if blocks == [] then ""
    else AllText(blocks[..|blocks| - 1]) + (if blocks[|blocks| - 1].Text? then blocks[|blocks| - 1].text else "")
  }

  function Tools(blocks: seq<Block>): seq<Block> {
    if blocks == [] then []
    else Tools(blocks[..|blocks| - 1]) + (if blocks[|blocks| - 1].ToolUse? then [blocks[|blocks| - 1]] else [])
  }

  lemma {:induction false} AllTextSnoc(blocks: seq<Block>, b: Block)
    ensures AllText(blocks + [b]) == AllText(blocks) + (if b.Text? then b.text else "")
    ensures Tools(blocks + [b]) == Tools(blocks) + (if b.ToolUse? then [b] else [])
  {
    Front(blocks, b);
  }

  lemma {:induction false} ExtendLastKeeps(blocks: seq<Block>, text: string)
    ensures AllText(ExtendLast(blocks, text)) == AllText(blocks) + text
    ensures Tools(ExtendLast(blocks, text)) == Tools(blocks)
  {
    if blocks != [] && blocks[|blocks| - 1].Text? {
      var front, last := blocks[..|blocks| - 1], blocks[|blocks| - 1];
      AllTextSnoc(front, Text(last.text + text));
      assert AllText(front) + (last.text + text) == AllText(front) + last.text + text;
    } else {
      AllTextSnoc(blocks, Text(text));
    }
  }

  /** Joining loses no text and no tool call, whatever else the list holds. */
  lemma {:induction false} JoinedKeepsAll(blocks: seq<Block>)
    ensures AllText(Joined(blocks)) == AllText(blocks) && Tools(Joined(blocks)) == Tools(blocks)
  {
    if blocks != [] {
      var front, last := blocks[..|blocks| - 1], blocks[|blocks| - 1];
      JoinedKeepsAll(front);
      match last {
        case Text(text) =>
          ExtendLastKeeps(Joined(front), text);
          AllTextSnoc(Joined(front), last);
        case ToolUse(_, _, _) =>
          AllTextSnoc(Joined(front), last);
        case _ =>
          assert AllText(front) + "" == AllText(front);
      }
    }
  }
}
