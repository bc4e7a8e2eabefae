/** What the gateway's translation means to the client that reads it: the text, the tool calls and the
    stop reason survive. */
module GatewayMeaning {
  import opened Wrappers
  import opened Seqs
  import opened Strings
  import opened StreamRetry
  import opened MessageStream
  import opened BifrostClient
  import GatewayCalls

  // ---------------------------------------------------------------- well-formed upstream sequences

  datatype Output =
    | TextItem(deltas: seq<string>)
    | FunctionItem(callID: Option<string>, name: Option<string>, deltas: seq<string>)

  function TextDeltas(deltas: seq<string>): seq<Upstream> {
    if deltas == [] then []
    else TextDeltas(deltas[..|deltas| - 1]) + [OutputTextDelta(Some(deltas[|deltas| - 1]))]
  }

  function ArgumentsDeltas(deltas: seq<string>): seq<Upstream> {
    if deltas == [] then []
    else ArgumentsDeltas(deltas[..|deltas| - 1]) + [ArgumentsDelta(Some(deltas[|deltas| - 1]))]
  }

  function ItemEvents(item: Output): seq<Upstream> {
    match item
    case TextItem(deltas) => TextDeltas(deltas) + [OutputTextDone]
    case FunctionItem(id, name, deltas) =>
      [OutputItemAdded(Some(Item(true, id, name)))] + ArgumentsDeltas(deltas) + [ArgumentsDone]
  }

  function Flatten(items: seq<Output>): seq<Upstream> {
    if items == [] then [] else Flatten(items[..|items| - 1]) + ItemEvents(items[|items| - 1])
  }

  /** Upstream events for which nothing is written. */
  predicate Silent(up: Upstream) {
    match up
    case OutputTextDelta(delta) => delta == None
    case ArgumentsDelta(delta) => delta == None
    case OutputItemAdded(_) => !StartsCall(up)
    case ResponseCompleted(_) => true
    case OtherType => true
    case _ => false
  }

  function Signal(ups: seq<Upstream>): seq<Upstream> {
    if ups == [] then []
    else Signal(ups[..|ups| - 1]) + (if Silent(ups[|ups| - 1]) then [] else [ups[|ups| - 1]])
  }

  // ---------------------------------------------------------------- what a sequence says

  /** All text deltas of any upstream sequence, in order. */
  function Texts(ups: seq<Upstream>): string {
    if ups == [] then ""
    else
      var last := ups[|ups| - 1];
      Texts(ups[..|ups| - 1]) + (if last.OutputTextDelta? then OrEmpty(last.delta) else "")
  }

  predicate MentionsCall(ups: seq<Upstream>) {
    exists i :: 0 <= i < |ups| && (StartsCall(ups[i]) || ups[i].ArgumentsDone?)
  }

  function ItemsText(items: seq<Output>): string {
    if items == [] then ""
    else
      var last := items[|items| - 1];
      ItemsText(items[..|items| - 1]) + (if last.TextItem? then Concat(last.deltas) else "")
  }

  function ItemsCalls<I>(decode: Decoder<I>, items: seq<Output>): seq<ToolCall<I>> {
    if items == [] then []
    else
      var last := items[|items| - 1];
      ItemsCalls(decode, items[..|items| - 1]) +
      (if last.FunctionItem? then [Call(decode, OrEmpty(last.callID), OrEmpty(last.name), Concat(last.deltas))] else [])
  }

  predicate HasFunction(items: seq<Output>) {
    exists i :: 0 <= i < |items| && items[i].FunctionItem?
  }

  /** What the items mean, said without the stream. */
  function Meaning<I>(decode: Decoder<I>, items: seq<Output>, withCalls: bool): LLMResponse<I> {
    LLMResponse(ItemsText(items), ItemsCalls(decode, items), if withCalls then "tool_use" else "end_turn")
  }

  // ---------------------------------------------------------------- silent events

  lemma {:induction false} SilentErased(c: Cursor, ups: seq<Upstream>)
    ensures Written(c, ups) == Written(c, Signal(ups))
    ensures After(c, ups).(outputTokens := 0) == After(c, Signal(ups)).(outputTokens := 0)
  {
    if ups != [] {
      var front, last := ups[..|ups| - 1], ups[|ups| - 1];
      SilentErased(c, front);
      if Silent(last) {
        assert Signal(ups) == Signal(front);
        assert Written(c, ups) == Written(c, front) + [];
      } else {
        WrittenSnoc(c, Signal(front), last);
        SameEmission(After(c, front), After(c, Signal(front)), last);
      }
    }
  }

  lemma {:induction false} SameEmission(a: Cursor, b: Cursor, up: Upstream)
    requires a.(outputTokens := 0) == b.(outputTokens := 0) && !Silent(up)
    ensures Emitted(a, up) == Emitted(b, up)
    ensures Next(a, up).(outputTokens := 0) == Next(b, up).(outputTokens := 0)
  {
  }

  // ---------------------------------------------------------------- any sequence: text and stop reason

  /** The text in a written stream. */
  function SseText(evs: seq<Sse>): string {
    if evs == [] then ""
    else
      var last := evs[|evs| - 1];
      SseText(evs[..|evs| - 1]) + (if last.TextDelta? then last.text else "")
  }

  ghost predicate NoMessageDelta(evs: seq<Sse>) {
    forall i :: 0 <= i < |evs| ==> !evs[i].MessageDelta?
  }

  lemma {:induction false} SseTextAppend(a: seq<Sse>, b: seq<Sse>)
    ensures SseText(a + b) == SseText(a) + SseText(b)
  {
    if b == [] {
      AppendNothing(a);
    } else {
      var front, last := b[..|b| - 1], b[|b| - 1];
      SseTextAppend(a, front);
      assert (a + b)[..|a + b| - 1] == a + front;
      Regroup(SseText(a), SseText(front), if last.TextDelta? then last.text else "");
    }
  }

  lemma {:induction false} StepText<I>(decode: Decoder<I>, p: Parser<I>, ev: Sse)
    ensures Concat(Step(decode, p, ev).textParts) == Concat(p.textParts) + (if ev.TextDelta? then ev.text else "")
    ensures !ev.MessageDelta? ==> Step(decode, p, ev).stopReason == p.stopReason
  {
    AppendNothing(Concat(p.textParts));
    if ev.TextDelta? {
      DeltaText(decode, p, ev);
    } else {
      assert Step(decode, p, ev).textParts == p.textParts;
    }
  }

  lemma {:induction false} DeltaText<I>(decode: Decoder<I>, p: Parser<I>, ev: Sse)
    requires ev.TextDelta?
    ensures Concat(Step(decode, p, ev).textParts) == Concat(p.textParts) + ev.text
  {
    ConcatSnoc(p.textParts, ev.text);
    AppendNothing(Concat(p.textParts));
  }

  lemma {:induction false} ReadText<I>(decode: Decoder<I>, p: Parser<I>, evs: seq<Sse>)
    requires NoMessageDelta(evs)
    ensures Concat(Steps(decode, p, evs).textParts) == Concat(p.textParts) + SseText(evs)
    ensures Steps(decode, p, evs).stopReason == p.stopReason
  {
    if evs == [] {
      assert Concat(p.textParts) + "" == Concat(p.textParts);
    } else {
      var front, last := evs[..|evs| - 1], evs[|evs| - 1];
      ReadText(decode, p, front);
      StepText(decode, Steps(decode, p, front), last);
      Regroup(Concat(p.textParts), SseText(front), if last.TextDelta? then last.text else "");
    }
  }

  lemma {:induction false} EmittedText(c: Cursor, up: Upstream)
    ensures SseText(Emitted(c, up)) == if up.OutputTextDelta? then OrEmpty(up.delta) else ""
    ensures NoMessageDelta(Emitted(c, up))
  {
    if up.OutputTextDelta? && up.delta.Some? {
      var ev := TextDelta(c.blockIndex, up.delta.value);
      assert SseText([ev]) == up.delta.value;
      assert [BlockStart(c.blockIndex, TextBlock)] + [ev] == [BlockStart(c.blockIndex, TextBlock), ev];
      SseTextAppend([BlockStart(c.blockIndex, TextBlock)], [ev]);
    }
  }

  lemma {:induction false} WrittenText(c: Cursor, ups: seq<Upstream>)
    ensures SseText(Written(c, ups)) == Texts(ups) && NoMessageDelta(Written(c, ups))
  {
    if ups != [] {
      var front, last := ups[..|ups| - 1], ups[|ups| - 1];
      WrittenText(c, front);
      EmittedText(After(c, front), last);
      SseTextAppend(Written(c, front), Emitted(After(c, front), last));
    }
  }

  lemma {:induction false} MentionsSnoc(front: seq<Upstream>, last: Upstream)
    ensures MentionsCall(front + [last]) <==> MentionsCall(front) || StartsCall(last) || last.ArgumentsDone?
  {
    MentionsAppend(front, [last]);
    if StartsCall(last) || last.ArgumentsDone? {
      assert [last][0] == last;
    }
  }

  lemma {:induction false} StopReasonAfter(ups: seq<Upstream>)
    ensures After(START, ups).stopReason == if MentionsCall(ups) then "tool_use" else "end_turn"
  {
    if ups != [] {
      var front, last := ups[..|ups| - 1], ups[|ups| - 1];
      StopReasonAfter(front);
      MentionsSnoc(front, last);
      FrontAndLast(ups);
    }
  }

  lemma {:induction false} AfterOpening<I>(decode: Decoder<I>, w: seq<Sse>)
    ensures Steps(decode, Fresh(), [MessageStart] + w) == Steps(decode, Fresh(), w)
  {
    assert [MessageStart] == [] + [MessageStart];
    StepsSnoc(decode, Fresh<I>(), [], MessageStart);
    StepsAppend(decode, Fresh<I>(), [MessageStart], w);
  }

  lemma {:induction false} AfterClosing<I>(decode: Decoder<I>, w: seq<Sse>, reason: string, tokens: int)
    ensures Steps(decode, Fresh(), w + [MessageDelta(reason, tokens), MessageStop]) ==
            Steps(decode, Fresh(), w).(stopReason := reason)
  {
    StepsSnoc(decode, Fresh<I>(), w, MessageDelta(reason, tokens));
    StepsSnoc(decode, Fresh<I>(), w + [MessageDelta(reason, tokens)], MessageStop);
    assert w + [MessageDelta(reason, tokens), MessageStop] == (w + [MessageDelta(reason, tokens)]) + [MessageStop];
  }

  /** Event number `i` is the last completion that reported usage. */
  ghost predicate LastReport(ups: seq<Upstream>, i: int) {
    && 0 <= i < |ups| && ups[i].ResponseCompleted? && ups[i].outputTokens.Some?
    && forall j :: i < j < |ups| && ups[j].ResponseCompleted? ==> ups[j].outputTokens == None
  }

  /** The tokens told at the end are the last reported, and zero if none were. */
  lemma {:induction false} TokensAreTheLastReported(ups: seq<Upstream>)
    ensures forall i :: LastReport(ups, i) ==> After(START, ups).outputTokens == ups[i].outputTokens.value
    ensures (forall i :: 0 <= i < |ups| && ups[i].ResponseCompleted? ==> ups[i].outputTokens == None) ==>
              After(START, ups).outputTokens == 0
  {
    if ups != [] {
      var front, last := ups[..|ups| - 1], ups[|ups| - 1];
      TokensAreTheLastReported(front);
      forall i | LastReport(ups, i)
        ensures After(START, ups).outputTokens == ups[i].outputTokens.value
      {
        if i < |front| {
          assert LastReport(front, i);
        }
      }
    }
  }

  /** The reader's state at the end of a translated stream. */
  lemma {:induction false} AtTheEnd<I>(decode: Decoder<I>, ups: seq<Upstream>)
    ensures var p := Steps(decode, Fresh(), Written(START, ups));
            && Steps(decode, Fresh(), Translated(ups)) == p.(stopReason := After(START, ups).stopReason)
            && Steps(decode, Fresh(), BrokenOff(ups)) == p
  {
    var w, c := Written(START, ups), After(START, ups);
    AfterOpening(decode, w);
    AfterClosing(decode, [MessageStart] + w, c.stopReason, c.outputTokens);
    StepsSnoc(decode, Fresh<I>(), [MessageStart] + w, ErrorEvent);
  }

  /** For every upstream sequence, well-formed or not: all text arrives in order, the tool calls are those
      that were closed, and the stop reason tells a tool call exactly when one was mentioned. When the
      stream broke off, text and calls up to there arrive and the stop reason is empty, so an empty
      reason marks a broken stream. */
  lemma {:induction false} TextAndReasonSurvive<I>(decode: Decoder<I>, ups: seq<Upstream>)
    ensures Parsed(decode, Translated(ups)).content == Texts(ups)
    ensures Parsed(decode, Translated(ups)).stopReason == if MentionsCall(ups) then "tool_use" else "end_turn"
    ensures Parsed(decode, Translated(ups)).toolCalls == GatewayCalls.ClosedCalls(decode, ups)
    ensures Parsed(decode, BrokenOff(ups)) == LLMResponse(Texts(ups), GatewayCalls.ClosedCalls(decode, ups), "")
  {
    AtTheEnd(decode, ups);
    GatewayCalls.CallsRead(decode, ups);
    WrittenText(START, ups);
    ReadText(decode, Fresh<I>(), Written(START, ups));
    StopReasonAfter(ups);
    assert "" + Texts(ups) == Texts(ups);
  }

  // ---------------------------------------------------------------- well-formed sequences: the blocks

  function TextSse(i: nat, deltas: seq<string>): seq<Sse> {
    if deltas == [] then [] else TextSse(i, deltas[..|deltas| - 1]) + [TextDelta(i, deltas[|deltas| - 1])]
  }

  function JsonSse(i: nat, deltas: seq<string>): seq<Sse> {
    if deltas == [] then [] else JsonSse(i, deltas[..|deltas| - 1]) + [InputJsonDelta(i, deltas[|deltas| - 1])]
  }

  /** The block written for item number `i`. An empty text item only has its stop. */
  function BlockSse(i: nat, item: Output): seq<Sse> {
    match item
    case TextItem(deltas) =>
      (if deltas == [] then [] else [BlockStart(i, TextBlock)]) + TextSse(i, deltas) + [BlockStop(i)]
    case FunctionItem(id, name, deltas) =>
      [BlockStart(i, ToolUseBlock(OrEmpty(id), OrEmpty(name)))] + JsonSse(i, deltas) + [BlockStop(i)]
  }

  function Blocks(items: seq<Output>): seq<Sse> {
    if items == [] then [] else Blocks(items[..|items| - 1]) + BlockSse(|items| - 1, items[|items| - 1])
  }

  lemma {:induction false} TextDeltasWritten(c: Cursor, deltas: seq<string>)
    requires !c.textStarted
    ensures After(c, TextDeltas(deltas)) == c.(textStarted := deltas != [])
    ensures Written(c, TextDeltas(deltas)) ==
            (if deltas == [] then [] else [BlockStart(c.blockIndex, TextBlock)]) + TextSse(c.blockIndex, deltas)
  {
    if deltas != [] {
      var front, last := deltas[..|deltas| - 1], deltas[|deltas| - 1];
      TextDeltasWritten(c, front);
      WrittenSnoc(c, TextDeltas(front), OutputTextDelta(Some(last)));
    }
  }

  lemma {:induction false} ArgumentsDeltasWritten(c: Cursor, deltas: seq<string>)
    ensures After(c, ArgumentsDeltas(deltas)) == c
    ensures Written(c, ArgumentsDeltas(deltas)) == JsonSse(c.blockIndex, deltas)
  {
    if deltas != [] {
      var front, last := deltas[..|deltas| - 1], deltas[|deltas| - 1];
      ArgumentsDeltasWritten(c, front);
      WrittenSnoc(c, ArgumentsDeltas(front), ArgumentsDelta(Some(last)));
    }
  }

  lemma {:induction false} FunctionItemWritten(c: Cursor, id: Option<string>, name: Option<string>, deltas: seq<string>)
    ensures var ups := [OutputItemAdded(Some(Item(true, id, name)))] + ArgumentsDeltas(deltas);
            && After(c, ups) == c.(stopReason := "tool_use")
            && Written(c, ups) ==
               [BlockStart(c.blockIndex, ToolUseBlock(OrEmpty(id), OrEmpty(name)))] + JsonSse(c.blockIndex, deltas)
  {
    var added := OutputItemAdded(Some(Item(true, id, name)));
    assert [added] == [] + [added];
    WrittenSnoc(c, [], added);
    ArgumentsDeltasWritten(Next(c, added), deltas);
    AfterAppend(c, [added], ArgumentsDeltas(deltas));
    WrittenAppend(c, [added], ArgumentsDeltas(deltas));
  }

  lemma {:induction false} ItemWritten(c: Cursor, item: Output)
    requires !c.textStarted
    ensures After(c, ItemEvents(item)).blockIndex == c.blockIndex + 1 && !After(c, ItemEvents(item)).textStarted
    ensures Written(c, ItemEvents(item)) == BlockSse(c.blockIndex, item)
  {
    match item {
      case TextItem(deltas) =>
        TextDeltasWritten(c, deltas);
        WrittenSnoc(c, TextDeltas(deltas), OutputTextDone);
      case FunctionItem(id, name, deltas) =>
        FunctionItemWritten(c, id, name, deltas);
        WrittenSnoc(c, [OutputItemAdded(Some(Item(true, id, name)))] + ArgumentsDeltas(deltas), ArgumentsDone);
    }
  }

  /** A well-formed sequence is written as one block after another, numbered from zero. */
  lemma {:induction false} FlattenWritten(items: seq<Output>)
    ensures After(START, Flatten(items)).blockIndex == |items| && !After(START, Flatten(items)).textStarted
    ensures Written(START, Flatten(items)) == Blocks(items)
  {
    if items != [] {
      var front, last := items[..|items| - 1], items[|items| - 1];
      FlattenWritten(front);
      AfterAppend(START, Flatten(front), ItemEvents(last));
      WrittenAppend(START, Flatten(front), ItemEvents(last));
      ItemWritten(After(START, Flatten(front)), last);
    }
  }

  // ---------------------------------------------------------------- reading the blocks back

  /** The part of the reader that tool calls go through. */
  ghost predicate Idle<I>(p: Parser<I>, calls: seq<ToolCall<I>>) {
    p.current == None && p.toolCalls == calls
  }

  lemma {:induction false} TextSseIdle<I>(decode: Decoder<I>, p: Parser<I>, i: nat, deltas: seq<string>)
    requires p.current == None
    ensures Idle(Steps(decode, p, TextSse(i, deltas)), p.toolCalls)
  {
    if deltas != [] {
      TextSseIdle(decode, p, i, deltas[..|deltas| - 1]);
      StepsSnoc(decode, p, TextSse(i, deltas[..|deltas| - 1]), TextDelta(i, deltas[|deltas| - 1]));
    }
  }

  lemma {:induction false} JsonSseBuffers<I>(decode: Decoder<I>, p: Parser<I>, i: nat, deltas: seq<string>)
    requires p.current.Some? && p.current.value.inputBuf == ""
    ensures Steps(decode, p, JsonSse(i, deltas)) ==
            p.(current := Some(p.current.value.(inputBuf := Concat(deltas))))
  {
    if deltas != [] {
      JsonSseBuffers(decode, p, i, deltas[..|deltas| - 1]);
      StepsSnoc(decode, p, JsonSse(i, deltas[..|deltas| - 1]), InputJsonDelta(i, deltas[|deltas| - 1]));
    }
  }

  lemma {:induction false} TextBlockIdle<I>(decode: Decoder<I>, p: Parser<I>, i: nat, deltas: seq<string>)
    requires p.current == None
    ensures Idle(Steps(decode, p, BlockSse(i, TextItem(deltas))), p.toolCalls)
  {
    var open: seq<Sse> := if deltas == [] then [] else [BlockStart(i, TextBlock)];
    assert deltas != [] ==> open == [] + [BlockStart(i, TextBlock)];
    StepsSnoc(decode, p, [], BlockStart(i, TextBlock));
    assert Steps(decode, p, open) == p;
    StepsAppend(decode, p, open, TextSse(i, deltas));
    TextSseIdle(decode, p, i, deltas);
    StepsSnoc(decode, p, open + TextSse(i, deltas), BlockStop(i));
  }

  lemma {:induction false} FunctionBlockCalls<I>(decode: Decoder<I>, p: Parser<I>, i: nat, item: Output)
    requires p.current == None && item.FunctionItem?
    ensures Idle(Steps(decode, p, BlockSse(i, item)),
                 p.toolCalls + [Call(decode, OrEmpty(item.callID), OrEmpty(item.name), Concat(item.deltas))])
  {
    var start := BlockStart(i, ToolUseBlock(OrEmpty(item.callID), OrEmpty(item.name)));
    assert [start] == [] + [start];
    StepsSnoc(decode, p, [], start);
    StepsAppend(decode, p, [start], JsonSse(i, item.deltas));
    JsonSseBuffers(decode, Step(decode, p, start), i, item.deltas);
    StepsSnoc(decode, p, [start] + JsonSse(i, item.deltas), BlockStop(i));
  }

  lemma {:induction false} BlocksCalls<I>(decode: Decoder<I>, items: seq<Output>)
    ensures Idle(Steps(decode, Fresh(), Blocks(items)), ItemsCalls(decode, items))
  {
    if items != [] {
      var front, last := items[..|items| - 1], items[|items| - 1];
      BlocksCalls(decode, front);
      var p := Steps(decode, Fresh<I>(), Blocks(front));
      StepsAppend(decode, Fresh<I>(), Blocks(front), BlockSse(|front|, last));
      if last.TextItem? {
        TextBlockIdle(decode, p, |front|, last.deltas);
      } else {
        FunctionBlockCalls(decode, p, |front|, last);
      }
    }
  }

  // ---------------------------------------------------------------- items and their events

  lemma {:induction false} TextsAppend(a: seq<Upstream>, b: seq<Upstream>)
    ensures Texts(a + b) == Texts(a) + Texts(b)
  {
    if b == [] {
      AppendNothing(a);
    } else {
      TextsAppend(a, b[..|b| - 1]);
      FrontOfSum(a, b);
    }
  }

  lemma {:induction false} TextsOfDeltas(deltas: seq<string>)
    ensures Texts(TextDeltas(deltas)) == Concat(deltas) && Texts(ArgumentsDeltas(deltas)) == ""
  {
    if deltas != [] {
      var front, last := deltas[..|deltas| - 1], deltas[|deltas| - 1];
      TextsOfDeltas(front);
      assert TextDeltas(deltas)[..|TextDeltas(deltas)| - 1] == TextDeltas(front);
      assert ArgumentsDeltas(deltas)[..|ArgumentsDeltas(deltas)| - 1] == ArgumentsDeltas(front);
    }
  }

  lemma {:induction false} TextsOfItem(item: Output)
    ensures Texts(ItemEvents(item)) == if item.TextItem? then Concat(item.deltas) else ""
  {
    TextsOfDeltas(item.deltas);
    match item {
      case TextItem(deltas) =>
        TextsAppend(TextDeltas(deltas), [OutputTextDone]);
      case FunctionItem(id, name, deltas) =>
        var added := OutputItemAdded(Some(Item(true, id, name)));
        TextsAppend([added], ArgumentsDeltas(deltas));
        TextsAppend([added] + ArgumentsDeltas(deltas), [ArgumentsDone]);
    }
  }

  lemma {:induction false} TextsOfItems(items: seq<Output>)
    ensures Texts(Flatten(items)) == ItemsText(items)
  {
    if items != [] {
      TextsOfItems(items[..|items| - 1]);
      TextsOfItem(items[|items| - 1]);
      TextsAppend(Flatten(items[..|items| - 1]), ItemEvents(items[|items| - 1]));
    }
  }

  lemma {:induction false} DeltasMentionNoCall(deltas: seq<string>)
    ensures !MentionsCall(TextDeltas(deltas))
  {
    if deltas != [] {
      DeltasMentionNoCall(deltas[..|deltas| - 1]);
    }
  }

  lemma {:induction false} MentionsAppend(a: seq<Upstream>, b: seq<Upstream>)
    ensures MentionsCall(a + b) <==> MentionsCall(a) || MentionsCall(b)
  {
    if MentionsCall(a) {
      var i :| 0 <= i < |a| && (StartsCall(a[i]) || a[i].ArgumentsDone?);
      assert (a + b)[i] == a[i];
    }
    if MentionsCall(b) {
      var i :| 0 <= i < |b| && (StartsCall(b[i]) || b[i].ArgumentsDone?);
      assert (a + b)[|a| + i] == b[i];
    }
  }

  lemma {:induction false} ItemsMentionCall(items: seq<Output>)
    ensures MentionsCall(Flatten(items)) <==> HasFunction(items)
  {
    if items != [] {
      var front, last := items[..|items| - 1], items[|items| - 1];
      ItemsMentionCall(front);
      MentionsAppend(Flatten(front), ItemEvents(last));
      assert HasFunction(items) <==> HasFunction(front) || last.FunctionItem?;
      if last.TextItem? {
        DeltasMentionNoCall(last.deltas);
        MentionsAppend(TextDeltas(last.deltas), [OutputTextDone]);
      } else {
        assert ItemEvents(last)[0] == OutputItemAdded(Some(Item(true, last.callID, last.name)));
      }
    }
  }

  lemma {:induction false} SignalKeeps(ups: seq<Upstream>)
    ensures Texts(Signal(ups)) == Texts(ups) && (MentionsCall(Signal(ups)) <==> MentionsCall(ups))
  {
    if ups != [] {
      var front, last := ups[..|ups| - 1], ups[|ups| - 1];
      SignalKeeps(front);
      FrontAndLast(ups);
      MentionsAppend(front, [last]);
      MentionsAppend(Signal(front), [last]);
      TextsAppend(Signal(front), [last]);
      TextsAppend(front, [last]);
      if Silent(last) {
        assert Signal(ups) == Signal(front);
        assert Texts([last]) == "";
      }
    }
  }

  /** The translation preserves meaning: for a sequence of items, with any silent events between and
      within them, the client recovers the joined text, every tool call in order with its id, name and
      decoded joined arguments, and a stop reason that says whether there is a call. */
  lemma {:induction false} TranslationPreservesMeaning<I>(decode: Decoder<I>, ups: seq<Upstream>, items: seq<Output>)
    requires Signal(ups) == Flatten(items)
    ensures Parsed(decode, Translated(ups)) == Meaning(decode, items, HasFunction(items))
  {
    TextAndReasonSurvive(decode, ups);
    SignalKeeps(ups);
    TextsOfItems(items);
    ItemsMentionCall(items);
    SilentErased(START, ups);
    FlattenWritten(items);
    BlocksCalls(decode, items);
    AtTheEnd(decode, ups);
  }

  // ---------------------------------------------------------------- from upstream to client

  /** The lines of a written stream: each event is an event line, a data line and an empty line. */
  function Lines(evs: seq<Sse>): seq<Line> {
    if evs == [] then [] else [SkippedLine, DataLine(evs[0]), SkippedLine] + Lines(evs[1..])
  }

  lemma {:induction false} LinesCarryPayloads(evs: seq<Sse>)
    ensures Payloads(Lines(evs)) == evs
  {
    if evs != [] {
      LinesCarryPayloads(evs[1..]);
      var lines := Lines(evs);
      assert lines[1..][0] == DataLine(evs[0]) && lines[1..][1..][0] == SkippedLine;
      assert lines[1..][1..][1..] == Lines(evs[1..]);
      assert Payloads(lines[1..][1..]) == Payloads(Lines(evs[1..]));
      assert Payloads(lines[1..]) == [evs[0]] + Payloads(Lines(evs[1..]));
    }
  }

  /** End to end, over every pattern of open failures and error chunks: when the request ends well,
      the client's response is the meaning of the one stream that served it, and when it breaks off
      the client gets the text and the calls closed so far, from that one stream, and an empty stop
      reason. */
  lemma {:induction false} GatewayDelivers<I>(decode: Decoder<I>, world: World<Upstream>, cfg: RetrySettings, s: Served,
                                              items: seq<Output>)
    requires ServedAs(world, cfg, s) && Backed(world, s)
    requires s.Ended? ==> Signal(Forwarded(world, s)) == Flatten(items)
    ensures Answer(world, s).Streamed? && s.Ended? ==>
              Parsed(decode, Payloads(Lines(Answer(world, s).events))) == Meaning(decode, items, HasFunction(items))
    ensures Answer(world, s).Streamed? && !s.Ended? ==>
              Parsed(decode, Payloads(Lines(Answer(world, s).events))) ==
              LLMResponse(Texts(Forwarded(world, s)), GatewayCalls.ClosedCalls(decode, Forwarded(world, s)), "")
    ensures Answer(world, s).BadGateway? ==> s.OpenFailed?
  {
    if Answer(world, s).Streamed? {
      LinesCarryPayloads(Answer(world, s).events);
      TextAndReasonSurvive(decode, Forwarded(world, s));
      if s.Ended? {
        TranslationPreservesMeaning(decode, Forwarded(world, s), items);
      }
    }
  }
}
