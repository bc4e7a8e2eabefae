/** The tool calls that the client reads from the gateway's translation of any upstream sequence, and
    exactly when all of them survive. */
module GatewayCalls {
  import opened Wrappers
  import opened Seqs
  import opened MessageStream
  import opened BifrostClient

  predicate IsDone(up: Upstream) {
    up.OutputTextDone? || up.ArgumentsDone?
  }

  /** The call that was added last, until something is done. */
  function OpenCall(ups: seq<Upstream>): Option<Item> {
    if ups == [] then None
    else
      var last := ups[|ups| - 1];
      if StartsCall(last) then last.item else if IsDone(last) then None else OpenCall(ups[..|ups| - 1])
  }

  /** The argument deltas since a call was added last, joined. */
  function ArgumentsSince(ups: seq<Upstream>): string {
    if ups == [] then ""
    else
      var front, last := ups[..|ups| - 1], ups[|ups| - 1];
      if StartsCall(last) then ""
      else if last.ArgumentsDelta? then ArgumentsSince(front) + OrEmpty(last.delta)
      else ArgumentsSince(front)
  }

  /** Each time something is done while a call is open, that call with its arguments. */
  function ClosedCalls<I>(decode: Decoder<I>, ups: seq<Upstream>): seq<ToolCall<I>> {
    if ups == [] then []
    else
      var front, last := ups[..|ups| - 1], ups[|ups| - 1];
      if IsDone(last) && OpenCall(front).Some?
      then ClosedCalls(decode, front) + [CallOf(decode, OpenCall(front).value, ArgumentsSince(front))]
      else ClosedCalls(decode, front)
  }

  function CallOf<I>(decode: Decoder<I>, item: Item, arguments: string): ToolCall<I> {
    Call(decode, OrEmpty(item.callID), OrEmpty(item.name), arguments)
  }

  // ---------------------------------------------------------------- what the client reads

  /** The reader holds these calls, and this one open. */
  ghost predicate Holds<I>(p: Parser<I>, calls: seq<ToolCall<I>>, current: Option<PendingTool>) {
    p.toolCalls == calls && p.current == current
  }

  function PendingOf(item: Option<Item>, arguments: string): Option<PendingTool> {
    if item == None then None else Some(PendingTool(OrEmpty(item.value.callID), OrEmpty(item.value.name), arguments))
  }

  lemma {:induction false} StepsOne<I>(decode: Decoder<I>, p: Parser<I>, ev: Sse)
    ensures Steps(decode, p, [ev]) == Step(decode, p, ev)
  {
    assert [] + [ev] == [ev];
    StepsSnoc(decode, p, [], ev);
  }

  /** Text leaves the calls alone. */
  lemma {:induction false} TextEmission<I>(decode: Decoder<I>, c: Cursor, p: Parser<I>, up: Upstream)
    requires up.OutputTextDelta?
    ensures Holds(Steps(decode, p, Emitted(c, up)), p.toolCalls, p.current)
  {
    if up.delta.Some? {
      var ev := TextDelta(c.blockIndex, up.delta.value);
      StepsOne(decode, p, ev);
      if !c.textStarted {
        StepsOne(decode, p, BlockStart(c.blockIndex, TextBlock));
        StepsSnoc(decode, p, [BlockStart(c.blockIndex, TextBlock)], ev);
      } else {
        assert [] + [ev] == [ev];
      }
    }
  }

  lemma {:induction false} DoneEmission<I>(decode: Decoder<I>, c: Cursor, p: Parser<I>, up: Upstream)
    requires IsDone(up)
    ensures Steps(decode, p, Emitted(c, up)) == Step(decode, p, BlockStop(c.blockIndex))
  {
    StepsOne(decode, p, BlockStop(c.blockIndex));
  }

  lemma {:induction false} CallEmission<I>(decode: Decoder<I>, c: Cursor, p: Parser<I>, up: Upstream)
    requires StartsCall(up)
    ensures Holds(Steps(decode, p, Emitted(c, up)), p.toolCalls, PendingOf(up.item, ""))
  {
    StepsOne(decode, p, Emitted(c, up)[0]);
  }

  lemma {:induction false} ArgumentsEmission<I>(decode: Decoder<I>, c: Cursor, p: Parser<I>, up: Upstream)
    requires up.ArgumentsDelta?
    ensures Holds(Steps(decode, p, Emitted(c, up)), p.toolCalls,
                  if p.current == None then None
                  else Some(p.current.value.(inputBuf := p.current.value.inputBuf + OrEmpty(up.delta))))
  {
    if up.delta.Some? {
      StepsOne(decode, p, InputJsonDelta(c.blockIndex, up.delta.value));
    } else if p.current.Some? {
      assert p.current.value.inputBuf + "" == p.current.value.inputBuf;
    }
  }

  /** For every upstream sequence the calls read are the closed ones, and the open one is pending. */
  lemma {:induction false} CallsRead<I>(decode: Decoder<I>, ups: seq<Upstream>)
    ensures Holds(Steps(decode, Fresh(), Written(START, ups)), ClosedCalls(decode, ups),
                  PendingOf(OpenCall(ups), ArgumentsSince(ups)))
  {
    if ups != [] {
      var front, last := ups[..|ups| - 1], ups[|ups| - 1];
      CallsRead(decode, front);
      var c, p := After(START, front), Steps(decode, Fresh<I>(), Written(START, front));
      StepsAppend(decode, Fresh<I>(), Written(START, front), Emitted(c, last));
      if last.OutputTextDelta? {
        TextEmission(decode, c, p, last);
      } else if IsDone(last) {
        DoneEmission(decode, c, p, last);
      } else if StartsCall(last) {
        CallEmission(decode, c, p, last);
      } else if last.ArgumentsDelta? {
        ArgumentsEmission(decode, c, p, last);
      } else {
        assert Emitted(c, last) == [];
      }
    }
  }

  // ---------------------------------------------------------------- when all calls survive

  /** A call as the upstream sends it, its arguments still text. */
  datatype SentCall = SentCall(id: string, name: string, arguments: string)

  function Head(item: Item, arguments: string): SentCall {
    SentCall(OrEmpty(item.callID), OrEmpty(item.name), arguments)
  }

  /** Every call that was added, with all the argument text sent before the next one was. */
  function Sent(ups: seq<Upstream>): seq<SentCall> {
    if ups == [] then []
    else
      var front, last := ups[..|ups| - 1], ups[|ups| - 1];
      if StartsCall(last) then Sent(front) + [Head(last.item.value, "")]
      else if last.ArgumentsDelta? then Extended(Sent(front), OrEmpty(last.delta))
      else Sent(front)
  }

  /** The last call with more argument text. */
  function Extended(calls: seq<SentCall>, text: string): seq<SentCall> {
    if calls == [] then []
    else
      var last := calls[|calls| - 1];
      calls[..|calls| - 1] + [last.(arguments := last.arguments + text)]
  }

  /** What the client makes of calls that arrive as they were sent. */
  function Decoded<I>(decode: Decoder<I>, calls: seq<SentCall>): (r: seq<ToolCall<I>>)
    ensures |r| == |calls| && forall i :: 0 <= i < |r| ==> r[i] == CallSent(decode, calls[i])
    ensures forall i :: 0 <= i < |r| ==>
              && r[i].id == calls[i].id && r[i].name == calls[i].name
              && r[i].input == if calls[i].arguments == "" then None else decode(calls[i].arguments)
  {
    if calls == [] then []
    else Decoded(decode, calls[..|calls| - 1]) + [CallSent(decode, calls[|calls| - 1])]
  }

  function CallSent<I>(decode: Decoder<I>, call: SentCall): ToolCall<I> {
    Call(decode, call.id, call.name, call.arguments)
  }

  /** The closed calls before their arguments are decoded, and the open one. */
  function ClosedTexts(ups: seq<Upstream>): seq<SentCall> {
    if ups == [] then []
    else
      var front, last := ups[..|ups| - 1], ups[|ups| - 1];
      ClosedTexts(front) + (if IsDone(last) then OpenText(front) else [])
  }

  function OpenText(ups: seq<Upstream>): seq<SentCall> {
    if OpenCall(ups) == None then [] else [Head(OpenCall(ups).value, ArgumentsSince(ups))]
  }

  lemma {:induction false} DecodedSnoc<I>(decode: Decoder<I>, calls: seq<SentCall>, call: SentCall)
    ensures Decoded(decode, calls + [call]) == Decoded(decode, calls) + [CallSent(decode, call)]
  {
    Front(calls, call);
  }

  lemma {:induction false} ClosedAreDecoded<I>(decode: Decoder<I>, ups: seq<Upstream>)
    ensures ClosedCalls(decode, ups) == Decoded(decode, ClosedTexts(ups))
  {
    if ups != [] {
      var front, last := ups[..|ups| - 1], ups[|ups| - 1];
      ClosedAreDecoded(decode, front);
      if IsDone(last) && OpenCall(front).Some? {
        DecodedSnoc(decode, ClosedTexts(front), OpenText(front)[0]);
      } else {
        AppendNothing(ClosedTexts(front));
      }
    }
  }

  /** Calls added while another one was still open. */
  function Overlapping(ups: seq<Upstream>): nat {
    if ups == [] then 0
    else
      var front, last := ups[..|ups| - 1], ups[|ups| - 1];
      Overlapping(front) + (if StartsCall(last) && OpenCall(front).Some? then 1 else 0)
  }

  ghost predicate Overlap(ups: seq<Upstream>) {
    exists i :: 0 <= i < |ups| && StartsCall(ups[i]) && OpenCall(ups[..i]).Some?
  }

  lemma {:induction false} OverlappingExactly(ups: seq<Upstream>)
    ensures Overlapping(ups) > 0 <==> Overlap(ups)
  {
    if ups != [] {
      var n := |ups| - 1;
      OverlappingExactly(ups[..n]);
      if Overlap(ups[..n]) {
        var i :| 0 <= i < n && StartsCall(ups[..n][i]) && OpenCall(ups[..n][..i]).Some?;
        assert ups[..n][..i] == ups[..i] && StartsCall(ups[i]);
      }
      if Overlap(ups) {
        var i :| 0 <= i < |ups| && StartsCall(ups[i]) && OpenCall(ups[..i]).Some?;
        if i < n {
          assert ups[..n][..i] == ups[..i] && StartsCall(ups[..n][i]);
        }
      }
    }
  }

  /** Argument text that came when a call had been added and none was open, and how much of it. */
  predicate ComesLate(front: seq<Upstream>, up: Upstream) {
    up.ArgumentsDelta? && OrEmpty(up.delta) != "" && OpenCall(front) == None && Sent(front) != []
  }

  function LateText(ups: seq<Upstream>): nat {
    if ups == [] then 0
    else
      var front, last := ups[..|ups| - 1], ups[|ups| - 1];
      LateText(front) + (if ComesLate(front, last) then |OrEmpty(last.delta)| else 0)
  }

  ghost predicate Late(ups: seq<Upstream>) {
    exists i :: 0 <= i < |ups| && ComesLate(ups[..i], ups[i])
  }

  lemma {:induction false} LateTextExactly(ups: seq<Upstream>)
    ensures LateText(ups) > 0 <==> Late(ups)
  {
    if ups != [] {
      var n := |ups| - 1;
      LateTextExactly(ups[..n]);
      if Late(ups[..n]) {
        var i :| 0 <= i < n && ComesLate(ups[..n][..i], ups[..n][i]);
        assert ups[..n][..i] == ups[..i] && ComesLate(ups[..i], ups[i]);
      }
      if Late(ups) {
        var i :| 0 <= i < |ups| && ComesLate(ups[..i], ups[i]);
        if i < n {
          assert ups[..n][..i] == ups[..i] && ComesLate(ups[..n][..i], ups[..n][i]);
        }
      }
    }
  }

  /** Every call added was closed, is open, or was overlapped. */
  lemma {:induction false} CallsCounted(ups: seq<Upstream>)
    ensures |ClosedTexts(ups)| + Overlapping(ups) + |OpenText(ups)| == |Sent(ups)|
  {
    if ups != [] {
      CallsCounted(ups[..|ups| - 1]);
    }
  }

  /** The open call is the last one added, with all its text so far. */
  lemma {:induction false} OpenIsLast(ups: seq<Upstream>)
    ensures OpenCall(ups).Some? ==> Sent(ups) != [] && Sent(ups)[|Sent(ups)| - 1] == OpenText(ups)[0]
  {
    if ups != [] {
      OpenIsLast(ups[..|ups| - 1]);
    }
  }

  /** All the argument text of some calls. */
  function TextOf(calls: seq<SentCall>): nat {
    if calls == [] then 0 else TextOf(calls[..|calls| - 1]) + |calls[|calls| - 1].arguments|
  }

  lemma {:induction false} TextOfSnoc(calls: seq<SentCall>, call: SentCall)
    ensures TextOf(calls + [call]) == TextOf(calls) + |call.arguments|
  {
    Front(calls, call);
  }

  lemma {:induction false} TextOfExtended(calls: seq<SentCall>, text: string)
    requires calls != []
    ensures TextOf(Extended(calls, text)) == TextOf(calls) + |text|
  {
    var last := calls[|calls| - 1];
    TextOfSnoc(calls[..|calls| - 1], last.(arguments := last.arguments + text));
  }

  lemma {:induction false} TextOfOpen(ups: seq<Upstream>)
    ensures TextOf(OpenText(ups)) == if OpenCall(ups) == None then 0 else |ArgumentsSince(ups)|
  {
    if OpenCall(ups).Some? {
      assert OpenText(ups)[..0] == [];
    }
  }

  /** Without overlap no text is unaccounted for: it is closed, open or late. */
  lemma {:induction false} TextConserved(ups: seq<Upstream>)
    requires Overlapping(ups) == 0
    ensures TextOf(ClosedTexts(ups)) + TextOf(OpenText(ups)) + LateText(ups) == TextOf(Sent(ups))
  {
    if ups != [] {
      var front, last := ups[..|ups| - 1], ups[|ups| - 1];
      TextConserved(front);
      TextOfOpen(front);
      TextOfOpen(ups);
      OpenIsLast(front);
      AppendNothing(ClosedTexts(front));
      if IsDone(last) && OpenCall(front).Some? {
        TextOfSnoc(ClosedTexts(front), OpenText(front)[0]);
      } else if StartsCall(last) {
        TextOfSnoc(Sent(front), Head(last.item.value, ""));
      } else if last.ArgumentsDelta? && Sent(front) != [] {
        TextOfExtended(Sent(front), OrEmpty(last.delta));
      }
    }
  }

  lemma {:induction false} ExtendedLast(calls: seq<SentCall>, last: SentCall, text: string)
    ensures Extended(calls + [last], text) == calls + [last.(arguments := last.arguments + text)]
  {
    Front(calls, last);
  }

  lemma {:induction false} ExtendedByNothing(calls: seq<SentCall>)
    ensures Extended(calls, "") == calls
  {
    if calls != [] {
      var last := calls[|calls| - 1];
      assert last.arguments + "" == last.arguments;
      FrontAndLast(calls);
    }
  }

  /** Without overlap and late text every call is in its place, whole. */
  lemma {:induction false} CallsInPlace(ups: seq<Upstream>)
    requires Overlapping(ups) == 0 && LateText(ups) == 0
    ensures ClosedTexts(ups) + OpenText(ups) == Sent(ups)
  {
    if ups != [] {
      var front, last := ups[..|ups| - 1], ups[|ups| - 1];
      CallsInPlace(front);
      AppendNothing(ClosedTexts(front));
      AppendNothing(ClosedTexts(ups));
      if last.ArgumentsDelta? {
        if OpenCall(front).Some? {
          ExtendedLast(ClosedTexts(front), OpenText(front)[0], OrEmpty(last.delta));
        } else {
          ExtendedByNothing(Sent(front));
        }
      }
    }
  }

  /** No call is added while another is open, none is left open, and no argument text comes between a
      call that was closed and the next one. */
  ghost predicate InTime(ups: seq<Upstream>) {
    !Overlap(ups) && OpenCall(ups) == None && !Late(ups)
  }

  lemma {:induction false} TextsSurviveExactly(ups: seq<Upstream>)
    ensures ClosedTexts(ups) == Sent(ups) <==> InTime(ups)
    ensures |ClosedTexts(ups)| == |Sent(ups)| <==> !Overlap(ups) && OpenCall(ups) == None
  {
    CallsCounted(ups);
    OverlappingExactly(ups);
    LateTextExactly(ups);
    AppendNothing(ClosedTexts(ups));
    if Overlapping(ups) == 0 && LateText(ups) == 0 {
      CallsInPlace(ups);
    } else if Overlapping(ups) == 0 {
      TextConserved(ups);
      TextOfOpen(ups);
    }
  }

  /** Different argument texts are decoded to different inputs. */
  ghost predicate TellsApart<I(!new)>(decode: Decoder<I>) {
    forall a, b :: CallSent(decode, a) == CallSent(decode, b) ==> a == b
  }

  /** Exactly when every call that the upstream sent reaches the client, with its id, its name and all its
      arguments, for every upstream sequence: if and only if none is added while another is open, none
      is left open and no argument text comes late. A decoder that takes different texts for the same
      can hide text that was lost, but no call that was. */
  lemma {:induction false} CallsSurviveExactly<I(!new)>(decode: Decoder<I>, ups: seq<Upstream>)
    ensures InTime(ups) ==> ClosedCalls(decode, ups) == Decoded(decode, Sent(ups))
    ensures ClosedCalls(decode, ups) == Decoded(decode, Sent(ups)) ==> !Overlap(ups) && OpenCall(ups) == None
    ensures TellsApart(decode) ==> (ClosedCalls(decode, ups) == Decoded(decode, Sent(ups)) <==> InTime(ups))
  {
    ClosedAreDecoded(decode, ups);
    TextsSurviveExactly(ups);
    if TellsApart(decode) && ClosedCalls(decode, ups) == Decoded(decode, Sent(ups)) {
      var a, b := ClosedTexts(ups), Sent(ups);
      assert |a| == |Decoded(decode, a)| == |b|;
      forall i | 0 <= i < |a|
        ensures a[i] == b[i]
      {
        assert CallSent(decode, a[i]) == Decoded(decode, a)[i] == CallSent(decode, b[i]);
      }
      assert a == b;
    }
  }

  /** The smallest overlap: of two calls added before either is done only the second arrives. */
  lemma {:induction false} FirstOfTwoIsLost<I>(decode: Decoder<I>, a: Item, b: Item)
    requires a.isFunctionCall && b.isFunctionCall
    ensures var ups := [OutputItemAdded(Some(a)), OutputItemAdded(Some(b)), ArgumentsDone, ArgumentsDone];
            Overlap(ups) && ClosedCalls(decode, ups) == [CallOf(decode, b, "")]
  {
    var ups := [OutputItemAdded(Some(a)), OutputItemAdded(Some(b)), ArgumentsDone, ArgumentsDone];
    assert [] + ups[..1] == ups[..1] == [ups[0]] && ups[..2] == ups[..1] + [ups[1]];
    assert ups[..3] == ups[..2] + [ups[2]] && ups == ups[..3] + [ups[3]];
    UnfoldCalls(decode, [], ups[0]);
    UnfoldCalls(decode, ups[..1], ups[1]);
    UnfoldCalls(decode, ups[..2], ups[2]);
    UnfoldCalls(decode, ups[..3], ups[3]);
    assert StartsCall(ups[1]);
  }

  /** A call can arrive without its arguments: the end of a text closes it before they are sent. */
  lemma {:induction false} LateArgumentsAreLost<I>(decode: Decoder<I>, a: Item)
    requires a.isFunctionCall
    ensures var ups := [OutputItemAdded(Some(a)), OutputTextDone, ArgumentsDelta(Some("{}")), ArgumentsDone];
            && !Overlap(ups) && OpenCall(ups) == None && Late(ups)
            && ClosedCalls(decode, ups) == [CallOf(decode, a, "")] && Sent(ups) == [Head(a, "{}")]
  {
    var ups := [OutputItemAdded(Some(a)), OutputTextDone, ArgumentsDelta(Some("{}")), ArgumentsDone];
    TextEndClosesTheCall(decode, a);
    var closed := [OutputItemAdded(Some(a)), OutputTextDone];
    assert ups[..2] == closed && ComesLate(ups[..2], ups[2]);
    var late := closed + [ups[2]];
    UnfoldCalls(decode, closed, ups[2]);
    ExtendedLast([], Head(a, ""), "{}");
    assert "" + "{}" == "{}" && [] + [Head(a, "")] == [Head(a, "")];
    assert ups == late + [ups[3]];
    UnfoldCalls(decode, late, ups[3]);
    OverlappingExactly(ups);
  }

  lemma {:induction false} TextEndClosesTheCall<I>(decode: Decoder<I>, a: Item)
    requires a.isFunctionCall
    ensures var ups := [OutputItemAdded(Some(a)), OutputTextDone];
            && Overlapping(ups) == 0 && OpenCall(ups) == None
            && ClosedCalls(decode, ups) == [CallOf(decode, a, "")] && Sent(ups) == [Head(a, "")]
  {
    var added := [OutputItemAdded(Some(a))];
    assert [] + added == added && added + [OutputTextDone] == [OutputItemAdded(Some(a)), OutputTextDone];
    UnfoldCalls(decode, [], added[0]);
    UnfoldCalls(decode, added, OutputTextDone);
  }

  /** One upstream event more. */
  lemma {:induction false} UnfoldCalls<I>(decode: Decoder<I>, front: seq<Upstream>, up: Upstream)
    ensures var ups := front + [up];
            && OpenCall(ups) == (if StartsCall(up) then up.item else if IsDone(up) then None else OpenCall(front))
            && (StartsCall(up) ==> ArgumentsSince(ups) == "" && Sent(ups) == Sent(front) + [Head(up.item.value, "")])
            && (up.ArgumentsDelta? ==> Sent(ups) == Extended(Sent(front), OrEmpty(up.delta)))
            && (IsDone(up) ==> Sent(ups) == Sent(front))
            && ClosedCalls(decode, ups) ==
               ClosedCalls(decode, front)
               + (if IsDone(up) && OpenCall(front).Some?
                  then [CallOf(decode, OpenCall(front).value, ArgumentsSince(front))] else [])
            && Overlapping(ups) == Overlapping(front) + (if StartsCall(up) && OpenCall(front).Some? then 1 else 0)
  {
    Front(front, up);
  }
}
