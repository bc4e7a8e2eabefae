/** Turning a turn's events into history messages (agentservice/ingest.go), and the proof that
    heartbeats change neither the history nor the outcome of a turn. */
module Ingest {
  import opened Seqs
  import opened Events
  import opened Terminal
  import opened Heartbeat

  datatype ToolCall = ToolCall(name: string, input: map<string, string>)

  /** A history message; its timestamp is not modelled. */
  datatype Message = Message(role: string, content: string, origin: string, toolCalls: seq<ToolCall>)

  /** The loop's variables: the messages so far and the text not yet flushed. */
  datatype IngestState = IngestState(msgs: seq<Message>, text: string)

  function Flushed(s: IngestState, origin: string): IngestState {
    if s.text == "" then s else IngestState(s.msgs + [Message("assistant", s.text, origin, [])], "")
  }

  function IngestStep(s: IngestState, origin: string, ev: StreamEvent): IngestState {
    match ev.kind
    case Text => s.(text := s.text + ev.content)
    case ToolUse =>
      var f := Flushed(s, origin);
      f.(msgs := f.msgs + [Message("assistant", "", origin, [ToolCall(ev.toolName, ev.toolInput)])])
    case ToolResult =>
      var f := Flushed(s, origin);
      f.(msgs := f.msgs + [Message("tool", ev.content, origin, [])])
    case Result => Flushed(s, origin)
    case Other(_) => Flushed(s, origin)
    case _ => s
  }

  function Ingested(origin: string, events: seq<StreamEvent>): IngestState {
    if events == [] then IngestState([], "")
    else IngestStep(Ingested(origin, events[..|events| - 1]), origin, events[|events| - 1])
  }

  function Messages(origin: string, events: seq<StreamEvent>): seq<Message> {
    Flushed(Ingested(origin, events), origin).msgs
  }

  method EventsToMessages(origin: string, events: seq<StreamEvent>) returns (msgs: seq<Message>)
    ensures msgs == Messages(origin, events)
  {
    msgs := [];
    var text := "";
    for i := 0 to |events|
      invariant Ingested(origin, events[..i]) == IngestState(msgs, text)
    {
      var ev := events[i];
      OneMore(events, i);
      if ev.kind == Text {
        text := text + ev.content;
      } else if ev.kind == ToolUse || ev.kind == ToolResult || ev.kind == Events.Result || ev.kind.Other? {
        if text != "" {
          msgs := msgs + [Message("assistant", text, origin, [])];
          text := "";
        }
        if ev.kind == ToolUse {
          msgs := msgs + [Message("assistant", "", origin, [ToolCall(ev.toolName, ev.toolInput)])];
        } else if ev.kind == ToolResult {
          msgs := msgs + [Message("tool", ev.content, origin, [])];
        }
      }
    }
    Whole(events);
    if text != "" {
      msgs := msgs + [Message("assistant", text, origin, [])];
    }
  }

  // ---------------------------------------------------------------- nothing is lost or reordered

  /** The conversation at its finest: each byte said, each call, each tool result. */
  datatype Fact = Byte(c: char) | Called(call: ToolCall) | Returned(content: string)

  function Bytes(text: string): seq<Fact> {
    seq(|text|, i requires 0 <= i < |text| => Byte(text[i]))
  }

  function Calls(calls: seq<ToolCall>): seq<Fact> {
    seq(|calls|, i requires 0 <= i < |calls| => Called(calls[i]))
  }

  function EventFacts(ev: StreamEvent): seq<Fact> {
    match ev.kind
    case Text => Bytes(ev.content)
    case ToolUse => [Called(ToolCall(ev.toolName, ev.toolInput))]
    case ToolResult => [Returned(ev.content)]
    case _ => []
  }

  function Told(events: seq<StreamEvent>): seq<Fact> {
    if events == [] then [] else Told(events[..|events| - 1]) + EventFacts(events[|events| - 1])
  }

  function MessageFacts(m: Message): seq<Fact> {
    if m.role == "tool" then [Returned(m.content)] else Bytes(m.content) + Calls(m.toolCalls)
  }

  function Recorded(msgs: seq<Message>): seq<Fact> {
    if msgs == [] then [] else Recorded(msgs[..|msgs| - 1]) + MessageFacts(msgs[|msgs| - 1])
  }

  lemma {:induction false} RecordedSnoc(msgs: seq<Message>, m: Message)
    ensures Recorded(msgs + [m]) == Recorded(msgs) + MessageFacts(m)
  {
    Front(msgs, m);
  }

  /** What the loop has taken in: the messages made, then the text not yet flushed. */
  function Held(s: IngestState): seq<Fact> {
    Recorded(s.msgs) + Bytes(s.text)
  }

  lemma {:induction false} HeldFlushed(s: IngestState)
    requires s.text == ""
    ensures Held(s) == Recorded(s.msgs)
  {
    assert Bytes("") == [];
    AppendNothing(Recorded(s.msgs));
  }

  lemma {:induction false} FlushKeepsFacts(s: IngestState, origin: string)
    ensures Recorded(Flushed(s, origin).msgs) == Held(s)
    ensures Flushed(s, origin).text == ""
  {
    if s.text == "" {
      HeldFlushed(s);
    } else {
      var m := Message("assistant", s.text, origin, []);
      RecordedSnoc(s.msgs, m);
      assert Calls([]) == [];
      AppendNothing(Bytes(s.text));
    }
  }

  lemma {:induction false} BytesAppend(a: string, b: string)
    ensures Bytes(a + b) == Bytes(a) + Bytes(b)
  {
  }

  /** A message made after a flush adds its own facts. */
  lemma {:induction false} MessageAdds(s: IngestState, origin: string, m: Message)
    ensures var f := Flushed(s, origin); Held(f.(msgs := f.msgs + [m])) == Held(s) + MessageFacts(m)
  {
    var f := Flushed(s, origin);
    FlushKeepsFacts(s, origin);
    RecordedSnoc(f.msgs, m);
    HeldFlushed(f.(msgs := f.msgs + [m]));
  }

  lemma {:induction false} CallFacts(origin: string, call: ToolCall)
    ensures MessageFacts(Message("assistant", "", origin, [call])) == [Called(call)]
  {
    assert Bytes("") == [] && Calls([call]) == [Called(call)];
  }

  lemma {:induction false} StepKeepsFacts(s: IngestState, origin: string, ev: StreamEvent)
    ensures Held(IngestStep(s, origin, ev)) == Held(s) + EventFacts(ev)
  {
    AppendNothing(Held(s));
    match ev.kind
    case Text =>
      BytesAppend(s.text, ev.content);
      Regroup(Recorded(s.msgs), Bytes(s.text), Bytes(ev.content));
    case ToolUse =>
      MessageAdds(s, origin, Message("assistant", "", origin, [ToolCall(ev.toolName, ev.toolInput)]));
      CallFacts(origin, ToolCall(ev.toolName, ev.toolInput));
    case ToolResult =>
      MessageAdds(s, origin, Message("tool", ev.content, origin, []));
    case _ =>
      FlushKeepsFacts(s, origin);
      HeldFlushed(Flushed(s, origin));
  }

  lemma {:induction false} IngestedKeepsFacts(origin: string, events: seq<StreamEvent>)
    ensures Held(Ingested(origin, events)) == Told(events)
  {
    if events != [] {
      IngestedKeepsFacts(origin, events[..|events| - 1]);
      StepKeepsFacts(Ingested(origin, events[..|events| - 1]), origin, events[|events| - 1]);
    }
  }

  /** The history records exactly what the events told, in order: every byte of text, every call with
      its input, every tool result. */
  lemma {:induction false} HistoryIsFaithful(origin: string, events: seq<StreamEvent>)
    ensures Recorded(Messages(origin, events)) == Told(events)
  {
    IngestedKeepsFacts(origin, events);
    FlushKeepsFacts(Ingested(origin, events), origin);
  }

  // ---------------------------------------------------------------- where one message ends

  /** Events that end a message: a call, a tool result, the result of the turn, and types that are unknown. */
  predicate Ends(ev: StreamEvent) {
    ev.kind == ToolUse || ev.kind == ToolResult || ev.kind == Events.Result || ev.kind.Other?
  }

  /** All text said, in one. */
  function TextSaid(events: seq<StreamEvent>): string {
    if events == [] then ""
    else
      var last := events[|events| - 1];
      TextSaid(events[..|events| - 1]) + if last.kind == Text then last.content else ""
  }

  lemma {:induction false} NoEndYet(origin: string, events: seq<StreamEvent>)
    requires forall i :: 0 <= i < |events| ==> !Ends(events[i])
    ensures Ingested(origin, events) == IngestState([], TextSaid(events))
  {
    if events != [] {
      NoEndYet(origin, events[..|events| - 1]);
      assert TextSaid(events[..|events| - 1]) + "" == TextSaid(events[..|events| - 1]);
    }
  }

  /** Up to an event that ends a message all text goes into one message of the assistant, and none without
      text. */
  lemma {:induction false} OneMessageOfText(origin: string, events: seq<StreamEvent>)
    requires forall i :: 0 <= i < |events| ==> !Ends(events[i])
    ensures Messages(origin, events) ==
            if TextSaid(events) == "" then [] else [Message("assistant", TextSaid(events), origin, [])]
  {
    NoEndYet(origin, events);
  }

  lemma {:induction false} IngestedAfterEnd(origin: string, a: seq<StreamEvent>, b: StreamEvent, c: seq<StreamEvent>)
    requires Ends(b)
    ensures var s, t := Ingested(origin, a + [b] + c), Ingested(origin, c);
            s == IngestState(Messages(origin, a) + OwnMessages(origin, b) + t.msgs, t.text)
  {
    var made := Messages(origin, a) + OwnMessages(origin, b);
    if c == [] {
      AppendNothing(a + [b]);
      Front(a, b);
      AppendNothing(Messages(origin, a));
      AppendNothing(made);
    } else {
      var front, last := c[..|c| - 1], c[|c| - 1];
      FrontOfSum(a + [b], c);
      IngestedAfterEnd(origin, a, b, front);
      StepAppendsMessages(origin, made, Ingested(origin, front), last);
    }
  }

  lemma {:induction false} StepAppendsMessages(origin: string, made: seq<Message>, s: IngestState, ev: StreamEvent)
    ensures var t := IngestStep(s, origin, ev);
            IngestStep(IngestState(made + s.msgs, s.text), origin, ev) == IngestState(made + t.msgs, t.text)
  {
    Regroup(made, s.msgs, [Message("assistant", s.text, origin, [])]);
    var f := Flushed(s, origin);
    Regroup(made, f.msgs, [Message("assistant", "", origin, [ToolCall(ev.toolName, ev.toolInput)])]);
    Regroup(made, f.msgs, [Message("tool", ev.content, origin, [])]);
  }

  /** The message that an event makes of itself: a call of the assistant, or a tool's result. */
  function OwnMessages(origin: string, ev: StreamEvent): seq<Message> {
    if ev.kind == ToolUse then [Message("assistant", "", origin, [ToolCall(ev.toolName, ev.toolInput)])]
    else if ev.kind == ToolResult then [Message("tool", ev.content, origin, [])]
    else []
  }

  /** An event that ends a message separates the history before it from that after it; between them there is
      the message it makes of itself. With `OneMessageOfText` this determines every message. */
  lemma {:induction false} EndSeparates(origin: string, a: seq<StreamEvent>, b: StreamEvent, c: seq<StreamEvent>)
    requires Ends(b)
    ensures Messages(origin, a + [b] + c) == Messages(origin, a) + OwnMessages(origin, b) + Messages(origin, c)
  {
    IngestedAfterEnd(origin, a, b, c);
    var t := Ingested(origin, c);
    Regroup(Messages(origin, a) + OwnMessages(origin, b), t.msgs, [Message("assistant", t.text, origin, [])]);
  }

  // ---------------------------------------------------------------- heartbeats do not matter

  lemma {:induction false} IngestIgnoresProgress(origin: string, events: seq<StreamEvent>)
    ensures Ingested(origin, WithoutProgress(events)) == Ingested(origin, events)
  {
    if events != [] {
      var front, last := events[..|events| - 1], events[|events| - 1];
      IngestIgnoresProgress(origin, front);
      if last.kind != Progress {
        assert (WithoutProgress(front) + [last])[..|WithoutProgress(front)|] == WithoutProgress(front);
      }
    }
  }

  /** Every event that is not progress is kept, and nothing else. */
  lemma {:induction false} WithoutProgressMembers(events: seq<StreamEvent>, ev: StreamEvent)
    ensures ev in WithoutProgress(events) <==> ev in events && ev.kind != Progress
  {
    if events != [] {
      WithoutProgressMembers(events[..|events| - 1], ev);
      FrontAndLast(events);
    }
  }

  lemma {:induction false} LastContentIgnoresProgress(events: seq<StreamEvent>, p: StreamEvent -> bool)
    requires forall ev :: p(ev) ==> ev.kind != Progress
    ensures LastContent(WithoutProgress(events), p) == LastContent(events, p)
  {
    if events != [] {
      var front, last := events[..|events| - 1], events[|events| - 1];
      LastContentIgnoresProgress(front, p);
      if last.kind != Progress {
        assert (WithoutProgress(front) + [last])[..|WithoutProgress(front)|] == WithoutProgress(front);
      }
    }
  }

  predicate Has(events: seq<StreamEvent>, p: StreamEvent -> bool) {
    exists i :: 0 <= i < |events| && p(events[i])
  }

  lemma {:induction false} HasIgnoresProgress(events: seq<StreamEvent>, p: StreamEvent -> bool)
    requires forall ev :: p(ev) ==> ev.kind != Progress
    ensures Has(WithoutProgress(events), p) <==> Has(events, p)
  {
    var kept := WithoutProgress(events);
    if Has(kept, p) {
      var i :| 0 <= i < |kept| && p(kept[i]);
      WithoutProgressMembers(events, kept[i]);
      var j :| 0 <= j < |events| && events[j] == kept[i];
    }
    if Has(events, p) {
      var i :| 0 <= i < |events| && p(events[i]);
      WithoutProgressMembers(events, events[i]);
      var j :| 0 <= j < |kept| && kept[j] == events[i];
    }
  }

  lemma {:induction false} ResolvedIgnoresProgress(events: seq<StreamEvent>)
    ensures Resolved(WithoutProgress(events)) == Resolved(events)
  {
    HasIgnoresProgress(events, IsResult);
    HasIgnoresProgress(events, IsFinalError);
    HasIgnoresProgress(events, IsRetryableError);
    LastContentIgnoresProgress(events, IsFinalError);
    LastContentIgnoresProgress(events, IsRetryableError);
    assert HasResult(events) == Has(events, IsResult)
        && HasResult(WithoutProgress(events)) == Has(WithoutProgress(events), IsResult);
    assert HasFinalError(events) == Has(events, IsFinalError)
        && HasFinalError(WithoutProgress(events)) == Has(WithoutProgress(events), IsFinalError);
    assert HasRetryableError(events) == Has(events, IsRetryableError)
        && HasRetryableError(WithoutProgress(events)) == Has(WithoutProgress(events), IsRetryableError);
  }

  /** Whatever heartbeats the pump injected, the relay gives the history and the outcome that the
      source's own events give. */
  lemma {:induction false} HeartbeatsChangeNothing(origin: string, interval: int, picks: seq<Pick>)
    ensures var relayed := EventsOf(Pumped(interval, picks).entries);
            && Messages(origin, relayed) == Messages(origin, Consumed(picks))
            && Resolved(relayed) == Resolved(Consumed(picks))
  {
    var relayed := EventsOf(Pumped(interval, picks).entries);
    SameApartFromProgress(interval, picks);
    IngestIgnoresProgress(origin, relayed);
    IngestIgnoresProgress(origin, Consumed(picks));
    ResolvedIgnoresProgress(relayed);
    ResolvedIgnoresProgress(Consumed(picks));
  }
}
