/** The pump that fills the relay and injects tool heartbeats (agentservice/exec_registry.go). */
module Heartbeat {
  import opened Wrappers
  import opened Seqs
  import opened Events

  const TOOL_STILL_RUNNING := "tool_still_running"

  /** What the pump's select statement picks: an event of the source, or a tick of the ticker. */
  datatype Pick = Source(ev: StreamEvent) | Tick

  /** A buffered event, with a mark that only the specification sees. */
  datatype Entry = Entry(ev: StreamEvent, injected: bool)

  datatype PumpState = PumpState(depth: int, toolName: string, ticking: bool, entries: seq<Entry>)

  const START := PumpState(0, "", false, [])

  function HeartbeatEvent(toolName: string): StreamEvent {
    Blank(Progress).(content := TOOL_STILL_RUNNING, toolName := toolName)
  }

  /** One iteration of the loop. Without a ticker its channel is nil and a tick is never picked. */
  function PumpStep(s: PumpState, interval: int, pick: Pick): PumpState {
    match pick
    case Tick =>
      if !s.ticking || s.depth <= 0 then s
      else s.(entries := s.entries + [Entry(HeartbeatEvent(s.toolName), true)])
    case Source(ev) =>
      var t := s.(entries := s.entries + [Entry(ev, false)]);
      if ev.kind == ToolUse then
        t.(depth := s.depth + 1, toolName := if ev.toolName != "" then ev.toolName else s.toolName,
           ticking := s.ticking || 0 < interval)
      else if ev.kind == ToolResult then
        var depth := if s.depth > 0 then s.depth - 1 else s.depth;
        if depth == 0 then t.(depth := 0, ticking := false, toolName := "") else t.(depth := depth)
      else if ev.kind == Events.Result || ev.kind == Error then t.(depth := 0, ticking := false, toolName := "")
      else t
  }

  function Pumped(interval: int, picks: seq<Pick>): PumpState {
    if picks == [] then START else PumpStep(Pumped(interval, picks[..|picks| - 1]), interval, picks[|picks| - 1])
  }

  function EventsOf(entries: seq<Entry>): (events: seq<StreamEvent>)
    ensures |events| == |entries|
  {
    if entries == [] then [] else EventsOf(entries[..|entries| - 1]) + [entries[|entries| - 1].ev]
  }

  /** The loop's variables and the buffer are those of the state. */
  ghost predicate Holds(s: PumpState, depth: int, toolName: string, ticking: bool, events: seq<StreamEvent>) {
    s.depth == depth && s.toolName == toolName && s.ticking == ticking && EventsOf(s.entries) == events
  }

  class EventRelay {
    var events: seq<StreamEvent>
    var sourceDone: bool

    constructor ()
      ensures events == [] && !sourceDone
    {
      events, sourceDone := [], false;
    }

    method AppendEvent(ev: StreamEvent)
      modifies this
      ensures events == old(events) + [ev] && sourceDone == old(sourceDone)
    {
      events := events + [ev];
    }

    method MarkSourceDone()
      modifies this
      ensures sourceDone && events == old(events)
    {
      sourceDone := true;
    }

    /** pump: the source closes after the last pick. */
    method Pump(interval: int, picks: seq<Pick>)
      requires events == []
      modifies this
      ensures events == EventsOf(Pumped(interval, picks).entries)
      ensures sourceDone
    {
      var toolDepth, toolName, ticking := 0, "", false;
      for i := 0 to |picks|
        invariant Holds(Pumped(interval, picks[..i]), toolDepth, toolName, ticking, events)
      {
        OneMore(picks, i);
        ghost var s := Pumped(interval, picks[..i]);
        EventsOfSnoc(s.entries, if picks[i].Source? then Entry(picks[i].ev, false)
                                else Entry(HeartbeatEvent(s.toolName), true));
        match picks[i]
        case Source(ev) =>
          if ev.kind == ToolUse {
            toolDepth := toolDepth + 1;
            if ev.toolName != "" {
              toolName := ev.toolName;
            }
            if interval > 0 {
              ticking := true;
            }
          } else if ev.kind == ToolResult {
            if toolDepth > 0 {
              toolDepth := toolDepth - 1;
            }
            if toolDepth == 0 {
              ticking := false;
              toolName := "";
            }
          } else if ev.kind == Events.Result || ev.kind == Error {
            ticking := false;
            toolDepth := 0;
            toolName := "";
          }
          AppendEvent(ev);
        case Tick =>
          if ticking && toolDepth > 0 {
            AppendEvent(Blank(Progress).(content := TOOL_STILL_RUNNING, toolName := toolName));
          }
      }
      Whole(picks);
      MarkSourceDone();
    }
  }

  // ---------------------------------------------------------------- transparency

  /** The events the source produced. */
  function Consumed(picks: seq<Pick>): seq<StreamEvent> {
    if picks == [] then []
    else
      var front := Consumed(picks[..|picks| - 1]);
      if picks[|picks| - 1].Source? then front + [picks[|picks| - 1].ev] else front
  }

  function EraseInjected(entries: seq<Entry>): seq<StreamEvent> {
    if entries == [] then []
    else
      var front, last := EraseInjected(entries[..|entries| - 1]), entries[|entries| - 1];
      if last.injected then front else front + [last.ev]
  }

  /** The tools open after some source events: every use opens one, every result closes one if any
      is open, and a terminal event closes all. */
  function OpenTools(source: seq<StreamEvent>): nat {
    if source == [] then 0
    else
      var before, ev := OpenTools(source[..|source| - 1]), source[|source| - 1];
      if ev.kind == ToolUse then before + 1
      else if ev.kind == ToolResult then if before > 0 then before - 1 else 0
      else if ev.kind == Events.Result || ev.kind == Error then 0
      else before
  }

  /** The name on a heartbeat: that of the last named tool use since no tool was open. */
  function OpenToolName(source: seq<StreamEvent>): string {
    if source == [] || OpenTools(source) == 0 then ""
    else
      var ev := source[|source| - 1];
      if ev.kind == ToolUse && ev.toolName != "" then ev.toolName else OpenToolName(source[..|source| - 1])
  }

  lemma {:induction false} EraseSnoc(entries: seq<Entry>, e: Entry)
    ensures EraseInjected(entries + [e]) == EraseInjected(entries) + (if e.injected then [] else [e.ev])
  {
    Front(entries, e);
  }

  lemma {:induction false} OpenSnoc(source: seq<StreamEvent>, ev: StreamEvent)
    ensures OpenTools(source + [ev])
         == (var before := OpenTools(source);
             if ev.kind == ToolUse then before + 1
             else if ev.kind == ToolResult then if before > 0 then before - 1 else 0
             else if ev.kind == Events.Result || ev.kind == Error then 0
             else before)
    ensures OpenToolName(source + [ev])
         == if OpenTools(source + [ev]) == 0 then ""
            else if ev.kind == ToolUse && ev.toolName != "" then ev.toolName
            else OpenToolName(source)
  {
    Front(source, ev);
  }

  /** The pump's variables against the source alone. */
  ghost predicate Agrees(interval: int, s: PumpState, source: seq<StreamEvent>) {
    && EraseInjected(s.entries) == source
    && s.depth == OpenTools(source)
    && s.toolName == OpenToolName(source)
    && (s.ticking <==> 0 < interval && 0 < s.depth)
  }

  lemma {:induction false} StepAgrees(interval: int, s: PumpState, source: seq<StreamEvent>, pick: Pick)
    requires Agrees(interval, s, source)
    ensures Agrees(interval, PumpStep(s, interval, pick), if pick.Source? then source + [pick.ev] else source)
  {
    match pick
    case Source(ev) =>
      EraseSnoc(s.entries, Entry(ev, false));
      OpenSnoc(source, ev);
    case Tick =>
      EraseSnoc(s.entries, Entry(HeartbeatEvent(s.toolName), true));
  }

  /** Erasing the heartbeats gives back what the source produced, and the ticker runs exactly while a
      tool is open. */
  lemma {:induction false} HeartbeatsAreTransparent(interval: int, picks: seq<Pick>)
    ensures Agrees(interval, Pumped(interval, picks), Consumed(picks))
  {
    if picks != [] {
      var front := picks[..|picks| - 1];
      HeartbeatsAreTransparent(interval, front);
      StepAgrees(interval, Pumped(interval, front), Consumed(front), picks[|picks| - 1]);
    }
  }

  /** One iteration appends at most one entry, and a heartbeat only while the ticker runs. */
  lemma {:induction false} StepAppends(s: PumpState, interval: int, pick: Pick)
    ensures var t := PumpStep(s, interval, pick);
            || t.entries == s.entries
            || (exists e: Entry :: t.entries == s.entries + [e]
                                   && (e.injected ==> s.ticking && e.ev == HeartbeatEvent(s.toolName)))
  {
    match pick
    case Source(ev) =>
      assert PumpStep(s, interval, pick).entries == s.entries + [Entry(ev, false)];
    case Tick =>
      if s.ticking && s.depth > 0 {
        assert PumpStep(s, interval, pick).entries == s.entries + [Entry(HeartbeatEvent(s.toolName), true)];
      }
  }

  /** A heartbeat appears only while a tool is open, and names it. */
  lemma {:induction false} HeartbeatsNameAnOpenTool(interval: int, picks: seq<Pick>, i: nat)
    requires i < |Pumped(interval, picks).entries| && Pumped(interval, picks).entries[i].injected
    ensures var entries := Pumped(interval, picks).entries;
            && 0 < interval && 0 < OpenTools(EraseInjected(entries[..i]))
            && entries[i].ev == StreamEvent(Progress, "tool_still_running", "", [],
                                            OpenToolName(EraseInjected(entries[..i])), map[], "", "", "", "", "", 0, 0,
                                            None, false)
  {
    if picks != [] {
      var front := picks[..|picks| - 1];
      var s, t := Pumped(interval, front), Pumped(interval, picks);
      HeartbeatsAreTransparent(interval, front);
      StepAppends(s, interval, picks[|picks| - 1]);
      if i < |s.entries| {
        assert t.entries[..i] == s.entries[..i];
        HeartbeatsNameAnOpenTool(interval, front, i);
      } else {
        assert t.entries[..i] == s.entries;
      }
    }
  }

  /** A tick beats exactly while the ticker runs and a tool is open: then it appends one heartbeat, and else
      it changes nothing. An event of the source is appended as it is. */
  lemma {:induction false} BeatsExactly(interval: int, picks: seq<Pick>, pick: Pick)
    ensures var before, after := Pumped(interval, picks).entries, Pumped(interval, picks + [pick]).entries;
            match pick
            case Tick =>
              if 0 < interval && 0 < OpenTools(Consumed(picks))
              then |after| == |before| + 1 && after[..|before|] == before && after[|before|].injected
              else after == before
            case Source(ev) => after == before + [Entry(ev, false)]
  {
    Front(picks, pick);
    HeartbeatsAreTransparent(interval, picks);
  }

  function WithoutProgress(events: seq<StreamEvent>): seq<StreamEvent> {
    if events == [] then []
    else
      var front, last := WithoutProgress(events[..|events| - 1]), events[|events| - 1];
      if last.kind == Progress then front else front + [last]
  }

  lemma {:induction false} WithoutProgressSnoc(events: seq<StreamEvent>, ev: StreamEvent)
    ensures WithoutProgress(events + [ev]) == WithoutProgress(events) + (if ev.kind == Progress then [] else [ev])
  {
    Front(events, ev);
  }

  lemma {:induction false} EventsOfSnoc(entries: seq<Entry>, e: Entry)
    ensures EventsOf(entries + [e]) == EventsOf(entries) + [e.ev]
  {
    Front(entries, e);
  }

  lemma {:induction false} StepSameApartFromProgress(interval: int, s: PumpState, source: seq<StreamEvent>, pick: Pick)
    requires WithoutProgress(EventsOf(s.entries)) == WithoutProgress(source)
    ensures WithoutProgress(EventsOf(PumpStep(s, interval, pick).entries))
         == WithoutProgress(if pick.Source? then source + [pick.ev] else source)
  {
    if pick.Source? {
      EntryMore(s.entries, Entry(pick.ev, false));
      WithoutProgressSnoc(source, pick.ev);
      SourceIsAppended(s, interval, pick.ev);
    } else if s.ticking && s.depth > 0 {
      EntryMore(s.entries, Entry(HeartbeatEvent(s.toolName), true));
      AppendNothing(WithoutProgress(EventsOf(s.entries)));
    }
  }

  lemma {:induction false} SourceIsAppended(s: PumpState, interval: int, ev: StreamEvent)
    ensures PumpStep(s, interval, Source(ev)).entries == s.entries + [Entry(ev, false)]
  {
  }

  lemma {:induction false} EntryMore(entries: seq<Entry>, e: Entry)
    ensures WithoutProgress(EventsOf(entries + [e])) ==
            WithoutProgress(EventsOf(entries)) + (if e.ev.kind == Progress then [] else [e.ev])
  {
    EventsOfSnoc(entries, e);
    WithoutProgressSnoc(EventsOf(entries), e.ev);
  }

  /** The buffer and the source differ only in progress events. */
  lemma {:induction false} SameApartFromProgress(interval: int, picks: seq<Pick>)
    ensures WithoutProgress(EventsOf(Pumped(interval, picks).entries)) == WithoutProgress(Consumed(picks))
  {
    if picks != [] {
      var front := picks[..|picks| - 1];
      SameApartFromProgress(interval, front);
      StepSameApartFromProgress(interval, Pumped(interval, front), Consumed(front), picks[|picks| - 1]);
    }
  }
}
