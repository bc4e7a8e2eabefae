/** The stream the gateway writes for /v1/messages: upstream response events become Anthropic
    server-sent events (llmgateway/anthropic/handler.go). */
module MessageStream {
  import opened Wrappers
  import opened Seqs
  import opened StreamRetry

  datatype Item = Item(isFunctionCall: bool, callID: Option<string>, name: Option<string>)

  /** The upstream response events, by type; a pointer field is an option. */
  datatype Upstream =
    | OutputTextDelta(delta: Option<string>)
    | OutputTextDone
    | ArgumentsDelta(delta: Option<string>)
    | ArgumentsDone
    | OutputItemAdded(item: Option<Item>)
    | ResponseCompleted(outputTokens: Option<int>)
    | OtherType

  datatype Block = TextBlock | ToolUseBlock(id: string, name: string)

  datatype Sse =
    | MessageStart
    | BlockStart(index: nat, block: Block)
    | TextDelta(index: nat, text: string)
    | InputJsonDelta(index: nat, partial: string)
    | BlockStop(index: nat)
    | MessageDelta(stopReason: string, outputTokens: int)
    | MessageStop
    | ErrorEvent

  datatype Response = BadGateway | Streamed(events: seq<Sse>)

  /** The loop's variables. */
  datatype Cursor = Cursor(blockIndex: nat, textStarted: bool, stopReason: string, outputTokens: int)

  const START := Cursor(0, false, "end_turn", 0)

  function OrEmpty(s: Option<string>): string {
    if s.Some? then s.value else ""
  }

  predicate StartsCall(up: Upstream) {
    up.OutputItemAdded? && up.item.Some? && up.item.value.isFunctionCall
  }

  function Next(c: Cursor, up: Upstream): Cursor {
    match up
    case OutputTextDelta(Some(_)) => c.(textStarted := true)
    case OutputTextDone => c.(blockIndex := c.blockIndex + 1, textStarted := false)
    case ArgumentsDone => c.(blockIndex := c.blockIndex + 1, stopReason := "tool_use")
    case OutputItemAdded(_) => if StartsCall(up) then c.(stopReason := "tool_use") else c
    case ResponseCompleted(Some(n)) => c.(outputTokens := n)
    case _ => c
  }

  function Emitted(c: Cursor, up: Upstream): seq<Sse> {
    match up
    case OutputTextDelta(Some(text)) =>
      (if c.textStarted then [] else [BlockStart(c.blockIndex, TextBlock)]) + [TextDelta(c.blockIndex, text)]
    case OutputTextDone => [BlockStop(c.blockIndex)]
    case ArgumentsDelta(Some(partial)) => [InputJsonDelta(c.blockIndex, partial)]
    case ArgumentsDone => [BlockStop(c.blockIndex)]
    case OutputItemAdded(_) =>
      if StartsCall(up)
      then [BlockStart(c.blockIndex, ToolUseBlock(OrEmpty(up.item.value.callID), OrEmpty(up.item.value.name)))]
      else []
    case _ => []
  }

  /** The cursor after a sequence of upstream events, and what was written for them. */
  function After(c: Cursor, ups: seq<Upstream>): Cursor {
    if ups == [] then c else Next(After(c, ups[..|ups| - 1]), ups[|ups| - 1])
  }

  function Written(c: Cursor, ups: seq<Upstream>): seq<Sse> {
    if ups == [] then []
    else Written(c, ups[..|ups| - 1]) + Emitted(After(c, ups[..|ups| - 1]), ups[|ups| - 1])
  }

  lemma {:induction false} WrittenSnoc(c: Cursor, ups: seq<Upstream>, up: Upstream)
    ensures After(c, ups + [up]) == Next(After(c, ups), up)
    ensures Written(c, ups + [up]) == Written(c, ups) + Emitted(After(c, ups), up)
  {
    Front(ups, up);
  }

  lemma {:induction false} AfterAppend(c: Cursor, a: seq<Upstream>, b: seq<Upstream>)
    ensures After(c, a + b) == After(After(c, a), b)
  {
    if b == [] {
      AppendNothing(a);
    } else {
      var front, last := b[..|b| - 1], b[|b| - 1];
      assert a + b == (a + front) + [last];
      AfterAppend(c, a, front);
      WrittenSnoc(c, a + front, last);
    }
  }

  lemma {:induction false} WrittenAppend(c: Cursor, a: seq<Upstream>, b: seq<Upstream>)
    ensures Written(c, a + b) == Written(c, a) + Written(After(c, a), b)
  {
    if b == [] {
      AppendNothing(a);
    } else {
      var front, last := b[..|b| - 1], b[|b| - 1];
      assert a + b == (a + front) + [last];
      AfterAppend(c, a, front);
      WrittenAppend(c, a, front);
      ghost var emitted := Emitted(After(c, a + front), last);
      WrittenSnoc(c, a + front, last);
      assert Written(After(c, a), b) == Written(After(c, a), front) + emitted;
      Regroup(Written(c, a), Written(After(c, a), front), emitted);
    }
  }

  /** A whole translated stream. */
  function Translated(ups: seq<Upstream>): seq<Sse> {
    var c := After(START, ups);
    [MessageStart] + Written(START, ups) + [MessageDelta(c.stopReason, c.outputTokens), MessageStop]
  }

  /** A stream that broke off: no message_delta and no message_stop. */
  function BrokenOff(ups: seq<Upstream>): seq<Sse> {
    [MessageStart] + Written(START, ups) + [ErrorEvent]
  }

  ghost predicate NeverOpened<T>(world: World<T>, s: Served) {
    s.OpenFailed? && NoneOpened(world, 0, s.opens)
  }

  /** What the client is sent when the request was served so. */
  ghost function Answer(world: World<Upstream>, s: Served): Response
    requires Backed(world, s)
  {
    if NeverOpened(world, s) then BadGateway
    else if s.Ended? then Streamed(Translated(Forwarded(world, s)))
    else Streamed(BrokenOff(Forwarded(world, s)))
  }

  /** What an answer looks like from outside: it starts once, and ends with the stop or with an error. */
  predicate WellEnded(events: seq<Sse>, complete: bool) {
    && 2 <= |events| && events[0] == MessageStart
    && (if complete then
          && 3 <= |events| && events[|events| - 2].MessageDelta? && events[|events| - 1] == MessageStop
          && forall i :: 1 <= i < |events| - 2 ==> OfBlocks(events[i])
        else
          && events[|events| - 1] == ErrorEvent
          && forall i :: 1 <= i < |events| - 1 ==> OfBlocks(events[i]))
  }

  predicate OfBlocks(e: Sse) {
    e.BlockStart? || e.TextDelta? || e.InputJsonDelta? || e.BlockStop?
  }

  lemma {:induction false} WrittenOfBlocks(c: Cursor, ups: seq<Upstream>)
    ensures forall i :: 0 <= i < |Written(c, ups)| ==> OfBlocks(Written(c, ups)[i])
  {
    if ups != [] {
      WrittenOfBlocks(c, ups[..|ups| - 1]);
    }
  }

  /** How the client is answered, for every way a request is served: a bad gateway exactly if no stream was
      ever opened; else one start, events of blocks, and in the end the usage and the stop if the stream
      served ended, and an error and no stop if it broke off or could not be opened again. */
  lemma {:induction false} AnswerEnds(world: World<Upstream>, s: Served)
    requires Backed(world, s)
    ensures Answer(world, s) == BadGateway <==> s.OpenFailed? && forall n :: 0 <= n < s.opens ==> !world.open(n).Stream?
    ensures Answer(world, s).Streamed? ==> WellEnded(Answer(world, s).events, s.Ended?)
  {
    if !NeverOpened(world, s) {
      WrittenOfBlocks(START, Forwarded(world, s));
    }
  }

  ghost predicate Reached(ups: seq<Upstream>, from: Cursor, out: seq<Sse>, c: Cursor, written: seq<Sse>) {
    c == After(from, ups) && written == out + Written(from, ups)
  }

  lemma {:induction false} ReachedSnoc(ups: seq<Upstream>, up: Upstream, from: Cursor, out: seq<Sse>, c: Cursor,
                                       written: seq<Sse>)
    requires Reached(ups, from, out, c, written)
    ensures Reached(ups + [up], from, out, Next(c, up), written + Emitted(c, up))
  {
    WrittenSnoc(from, ups, up);
    Regroup(out, Written(from, ups), Emitted(c, up));
  }

  /** The inner chunk loop over one stream, with the loop's variables handed in and out. */
  method TranslateChunks(chunks: seq<Chunk<Upstream>>, from: Cursor, count: nat, out: seq<Sse>)
    returns (c: Cursor, chunkCount: nat, written: seq<Sse>, e: nat)
    ensures e == FirstError(chunks, 0) <= |chunks|
    ensures Reached(DataBefore(chunks, e), from, out, c, written)
    ensures chunkCount == count + |DataBefore(chunks, e)|
  {
    c, chunkCount, written, e := from, count, out, 0;
    while e < |chunks|
      invariant e <= |chunks| && FirstError(chunks, 0) == FirstError(chunks, e)
      invariant Reached(DataBefore(chunks, e), from, out, c, written)
      invariant chunkCount == count + |DataBefore(chunks, e)|
    {
      if chunks[e].ErrorChunk? {
        return;
      }
      if chunks[e].Data? {
        var up := chunks[e].event;
        ReachedSnoc(DataBefore(chunks, e), up, from, out, c, written);
        chunkCount, written, c := chunkCount + 1, written + Emitted(c, up), Next(c, up);
      } else {
        assert DataBefore(chunks, e + 1) == DataBefore(chunks, e);
      }
      e := e + 1;
    }
  }

  ghost predicate Answers(world: World<Upstream>, s: Served, r: Response) {
    Backed(world, s) && r == Answer(world, s)
  }

  /** What the handler sends after reading a stream to `e` answers for that way of serving. */
  lemma {:induction false} AnswersAfterReading(world: World<Upstream>, n: nat, chunks: seq<Chunk<Upstream>>, e: nat,
                                               c: Cursor, out: seq<Sse>)
    requires world.open(n) == Stream(chunks) && e == FirstError(chunks, 0)
    requires Reached(DataBefore(chunks, e), START, [MessageStart], c, out)
    ensures e == |chunks| ==>
              Answers(world, Ended(n), Streamed(out + [MessageDelta(c.stopReason, c.outputTokens), MessageStop]))
    ensures e < |chunks| ==> Answers(world, Errored(n, e), Streamed(out + [ErrorEvent]))
    ensures DataBefore(chunks, e) == [] ==> c == START && out == [MessageStart]
  {
  }

  lemma {:induction false} AnswersWhenReopenFails(world: World<Upstream>, n: nat, opens: nat)
    requires world.open(n).Stream? && n < opens
    ensures Answers(world, OpenFailed(opens), Streamed([MessageStart] + [ErrorEvent]))
  {
    assert !NeverOpened(world, OpenFailed(opens));
    assert BrokenOff([]) == [MessageStart] + [ErrorEvent];
  }

  /** handleMessagesBifrostStream. */
  method HandleMessagesStream(budget: RetryBudget<Upstream>) returns (r: Response, served: Served)
    requires budget.fails == 0 && budget.opens == 0 && budget.delays == []
    modifies budget
    ensures ServedAs(budget.world, budget.cfg, served) && budget.opens == Opens(served)
    ensures Answers(budget.world, served, r)
    ensures budget.Accounted()
  {
    var got := budget.OpenWithBudget();
    ReopenDecides(budget.world, budget.cfg, 0, budget.fails);
    if got == None {
      return BadGateway, OpenFailed(budget.opens);
    }
    var chunks, c, chunkCount, out := got.value, START, 0, [MessageStart];
    while true
      invariant AtStream(budget, chunks) && c == START && chunkCount == 0 && out == [MessageStart]
      decreases budget.cfg.maxRetries - budget.fails
    {
      var e;
      c, chunkCount, out, e := TranslateChunks(chunks, c, chunkCount, out);
      AnswersAfterReading(budget.world, budget.fails, chunks, e, c, out);
      StreamDecides(budget.world, budget.cfg, budget.fails, chunks);
      if e == |chunks| {
        out := out + [MessageDelta(c.stopReason, c.outputTokens), MessageStop];
        return Streamed(out), Ended(budget.fails);
      }
      ghost var stream := budget.fails;
      var retried := RetryStream(budget, chunks, e, chunkCount > 0);
      match retried {
        case GaveUp =>
          return Streamed(out + [ErrorEvent]), Errored(budget.fails, e);
        case ReopenFailed =>
          AnswersWhenReopenFails(budget.world, stream, budget.opens);
          return Streamed(out + [ErrorEvent]), OpenFailed(budget.opens);
        case Reopened(next) =>
          chunks := next;
      }
    }
  }
}
