/** How a relay's events decide the outcome of an attempt (agentservice/handler_retry.go). */
module Terminal {
  import opened Wrappers
  import opened Events

  const STREAM_ENDED_WITHOUT_TERMINAL := "stream ended without terminal event"

  /** streamTerminal; an absent kind is the zero value. */
  datatype StreamTerminal = StreamTerminal(kind: Option<Kind>, retryable: bool, content: string)

  const NO_TERMINAL := StreamTerminal(None, false, "")

  const RESULT_TERMINAL := StreamTerminal(Some(Events.Result), false, "")

  function ErrorTerminal(content: string): StreamTerminal {
    StreamTerminal(Some(Error), false, content)
  }

  function RetryableTerminal(content: string): StreamTerminal {
    StreamTerminal(Some(Error), true, content)
  }

  predicate IsResult(ev: StreamEvent) {
    ev.kind == Events.Result
  }

  predicate HasResult(events: seq<StreamEvent>) {
    exists i :: 0 <= i < |events| && IsResult(events[i])
  }

  predicate HasFinalError(events: seq<StreamEvent>) {
    exists i :: 0 <= i < |events| && IsFinalError(events[i])
  }

  predicate HasRetryableError(events: seq<StreamEvent>) {
    exists i :: 0 <= i < |events| && IsRetryableError(events[i])
  }

  /** The content of the last event satisfying `p`, empty when there is none. */
  function LastContent(events: seq<StreamEvent>, p: StreamEvent -> bool): string {
    if events == [] then ""
    else if p(events[|events| - 1]) then events[|events| - 1].content
    else LastContent(events[..|events| - 1], p)
  }

  /** The outcome by priority, wherever the events stand in the log. */
  function Resolved(events: seq<StreamEvent>): StreamTerminal {
    if HasResult(events) then RESULT_TERMINAL
    else if HasFinalError(events) then ErrorTerminal(LastContent(events, IsFinalError))
    else if HasRetryableError(events) then RetryableTerminal(LastContent(events, IsRetryableError))
    else ErrorTerminal(STREAM_ENDED_WITHOUT_TERMINAL)
  }

  method ResolveTerminalFromRelayEvents(events: seq<StreamEvent>) returns (term: StreamTerminal)
    ensures term == Resolved(events)
  {
    for i := 0 to |events|
      invariant forall k :: 0 <= k < i ==> !IsResult(events[k])
    {
      if events[i].kind == Events.Result {
        return RESULT_TERMINAL;
      }
    }
    var i := |events| - 1;
    while i >= 0
      invariant -1 <= i < |events|
      invariant forall k :: i < k < |events| ==> !IsFinalError(events[k])
    {
      if events[i].kind == Error && !events[i].retryable {
        LastContentAt(events, IsFinalError, i);
        return ErrorTerminal(events[i].content);
      }
      i := i - 1;
    }
    i := |events| - 1;
    while i >= 0
      invariant -1 <= i < |events|
      invariant forall k :: i < k < |events| ==> !IsRetryableError(events[k])
    {
      if events[i].kind == Error && events[i].retryable {
        LastContentAt(events, IsRetryableError, i);
        return RetryableTerminal(events[i].content);
      }
      i := i - 1;
    }
    return ErrorTerminal(STREAM_ENDED_WITHOUT_TERMINAL);
  }

  lemma {:induction false} LastContentAt(events: seq<StreamEvent>, p: StreamEvent -> bool, i: nat)
    requires i < |events| && p(events[i])
    requires forall k :: i < k < |events| ==> !p(events[k])
    ensures LastContent(events, p) == events[i].content
  {
    if i < |events| - 1 {
      LastContentAt(events[..|events| - 1], p, i);
    }
  }

  /** ensureRelayTerminal: a result or a final error stands; otherwise the whole relay decides, and
      a retryable error already seen is kept over a weaker verdict. */
  function Ensured(term: StreamTerminal, events: seq<StreamEvent>): StreamTerminal {
    if term.kind == Some(Events.Result) || (term.kind == Some(Error) && !term.retryable) then term
    else
      var resolved := Resolved(events);
      if resolved.kind == Some(Events.Result) || !resolved.retryable then resolved
      else if term.kind == Some(Error) && term.retryable then term
      else resolved
  }
}
