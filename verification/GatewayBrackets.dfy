/** The blocks that the gateway writes, read by a strict reader: they are bracketed exactly when no text
    item is empty. */
module GatewayBrackets {
  import opened Wrappers
  import opened Seqs
  import opened MessageStream
  import opened GatewayMeaning

  /** A strict reader of blocks: the number of closed blocks, and the open one if any. */
  datatype Blocking = Blocking(closed: nat, open: Option<Block>)

  function Scan(b: Option<Blocking>, ev: Sse): Option<Blocking> {
    if b == None then None
    else
      var at := b.value;
      match ev
      case BlockStart(i, block) =>
        if at.open == None && i == at.closed then Some(at.(open := Some(block))) else None
      case TextDelta(i, _) => if at.open == Some(TextBlock) && i == at.closed then b else None
      case InputJsonDelta(i, _) =>
        if at.open.Some? && at.open.value.ToolUseBlock? && i == at.closed then b else None
      case BlockStop(i) => if at.open.Some? && i == at.closed then Some(Blocking(i + 1, None)) else None
      case _ => if at.open == None then b else None
  }

  function Scans(b: Option<Blocking>, evs: seq<Sse>): Option<Blocking> {
    if evs == [] then b else Scan(Scans(b, evs[..|evs| - 1]), evs[|evs| - 1])
  }

  lemma {:induction false} ScansAppend(b: Option<Blocking>, x: seq<Sse>, y: seq<Sse>)
    ensures Scans(b, x + y) == Scans(Scans(b, x), y)
  {
    if y == [] {
      AppendNothing(x);
    } else {
      ScansAppend(b, x, y[..|y| - 1]);
      FrontOfSum(x, y);
    }
  }

  /** Blocks open and close one at a time, numbered 0, 1, 2, ..., `n` of them, each delta inside a block
      of its kind, and nothing else inside a block. */
  predicate Bracketed(evs: seq<Sse>, n: nat) {
    Scans(Some(Blocking(0, None)), evs) == Some(Blocking(n, None))
  }

  lemma {:induction false} DeltasScan(b: Blocking, deltas: seq<string>)
    ensures b.open == Some(TextBlock) ==> Scans(Some(b), TextSse(b.closed, deltas)) == Some(b)
    ensures b.open.Some? && b.open.value.ToolUseBlock? ==> Scans(Some(b), JsonSse(b.closed, deltas)) == Some(b)
  {
    if deltas != [] {
      DeltasScan(b, deltas[..|deltas| - 1]);
    }
  }

  lemma {:induction false} ScanOne(b: Option<Blocking>, ev: Sse)
    ensures Scans(b, [ev]) == Scan(b, ev)
  {
  }

  lemma {:induction false} ScansNone(evs: seq<Sse>)
    ensures Scans(None, evs) == None
  {
    if evs != [] {
      ScansNone(evs[..|evs| - 1]);
    }
  }

  predicate EmptyText(item: Output) {
    item == TextItem([])
  }

  lemma {:induction false} WrappedScans(i: nat, block: Block, body: seq<Sse>)
    requires Scans(Some(Blocking(i, Some(block))), body) == Some(Blocking(i, Some(block)))
    ensures Scans(Some(Blocking(i, None)), [BlockStart(i, block)] + body + [BlockStop(i)]) ==
            Some(Blocking(i + 1, None))
  {
    var b := Some(Blocking(i, None));
    ScanOne(b, BlockStart(i, block));
    ScansAppend(b, [BlockStart(i, block)], body);
    ScansAppend(b, [BlockStart(i, block)] + body, [BlockStop(i)]);
    ScanOne(Some(Blocking(i, Some(block))), BlockStop(i));
  }

  lemma {:induction false} BlockScans(i: nat, item: Output)
    ensures Scans(Some(Blocking(i, None)), BlockSse(i, item)) ==
            if EmptyText(item) then None else Some(Blocking(i + 1, None))
  {
    if EmptyText(item) {
      assert BlockSse(i, item) == [BlockStop(i)];
      ScanOne(Some(Blocking(i, None)), BlockStop(i));
    } else {
      var block := if item.TextItem? then TextBlock else ToolUseBlock(OrEmpty(item.callID), OrEmpty(item.name));
      var body := if item.TextItem? then TextSse(i, item.deltas) else JsonSse(i, item.deltas);
      DeltasScan(Blocking(i, Some(block)), item.deltas);
      WrappedScans(i, block, body);
    }
  }

  lemma {:induction false} NextBlockScans(b: Option<Blocking>, i: nat, item: Output)
    requires b == None || b == Some(Blocking(i, None))
    ensures Scans(b, BlockSse(i, item)) == if b == None || EmptyText(item) then None else Some(Blocking(i + 1, None))
  {
    if b == None {
      ScansNone(BlockSse(i, item));
    } else {
      BlockScans(i, item);
    }
  }

  ghost predicate NoEmptyText(items: seq<Output>) {
    forall i :: 0 <= i < |items| ==> !EmptyText(items[i])
  }

  lemma {:induction false} NoEmptyTextSnoc(items: seq<Output>)
    requires items != []
    ensures NoEmptyText(items) <==> NoEmptyText(items[..|items| - 1]) && !EmptyText(items[|items| - 1])
  {
  }

  lemma {:induction false} OneBlockMore(b: Option<Blocking>, front: seq<Output>, last: Output)
    ensures Scans(b, Blocks(front + [last])) == Scans(Scans(b, Blocks(front)), BlockSse(|front|, last))
  {
    Front(front, last);
    assert Blocks(front + [last]) == Blocks(front) + BlockSse(|front|, last);
    ScansAppend(b, Blocks(front), BlockSse(|front|, last));
  }

  /** Where the strict reader stands after `n` blocks. */
  function StandsAfter(ok: bool, n: nat): Option<Blocking> {
    if ok then Some(Blocking(n, None)) else None
  }

  lemma {:induction false} BlocksScan(items: seq<Output>)
    ensures Scans(StandsAfter(true, 0), Blocks(items)) == StandsAfter(NoEmptyText(items), |items|)
  {
    if items != [] {
      var front, last := items[..|items| - 1], items[|items| - 1];
      BlocksScan(front);
      NextBlockScans(StandsAfter(NoEmptyText(front), |front|), |front|, last);
      OneBlockMore(StandsAfter(true, 0), front, last);
      NoEmptyTextSnoc(items);
      FrontAndLast(items);
    }
  }

  /** The written blocks are bracketed exactly when every text item had a delta: a text item that ends
      without one is written as a stop with no start. */
  lemma {:induction false} BracketedExactly(ups: seq<Upstream>, items: seq<Output>, n: nat)
    requires Signal(ups) == Flatten(items)
    ensures Bracketed(Translated(ups), n) <==> NoEmptyText(items) && n == |items|
  {
    SilentErased(START, ups);
    FlattenWritten(items);
    BlocksScan(items);
    var b := Some(Blocking(0, None));
    var c := After(START, ups);
    var w := Written(START, ups);
    var tail := [MessageDelta(c.stopReason, c.outputTokens), MessageStop];
    ScanOne(b, MessageStart);
    ScansAppend(b, [MessageStart], w);
    ScansAppend(b, [MessageStart] + w, tail);
    TailScans(Scans(b, w), c.stopReason, c.outputTokens);
  }

  /** The smallest case: a text item that is done without a delta. */
  lemma {:induction false} EmptyTextUnbracketed(n: nat)
    ensures !Bracketed(Translated([OutputTextDone]), n)
  {
    var ups, items := [OutputTextDone], [TextItem([])];
    assert ups[..0] == [] && items[..0] == [];
    assert Flatten(items[..0]) == [] && Flatten(items) == ItemEvents(items[0]) == [OutputTextDone];
    assert Signal(ups) == [OutputTextDone];
    BracketedExactly(ups, items, n);
    assert EmptyText(items[0]);
  }

  lemma {:induction false} TailScans(b: Option<Blocking>, reason: string, tokens: int)
    requires b.Some? ==> b.value.open == None
    ensures Scans(b, [MessageDelta(reason, tokens), MessageStop]) == b
  {
    assert [MessageDelta(reason, tokens), MessageStop] == [MessageDelta(reason, tokens)] + [MessageStop];
    ScansAppend(b, [MessageDelta(reason, tokens)], [MessageStop]);
    ScanOne(b, MessageDelta(reason, tokens));
    ScanOne(b, MessageStop);
  }
}
