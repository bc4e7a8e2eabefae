/** The relay buffer shared by one pump and any number of reader goroutines
    (eventRelay in agentservice/exec_registry.go), as a step system. A step is one critical section
    of the mutex, one channel operation, or the closing of the done channel; any interleaving of
    steps is a run. */
module RelayProtocol {
  import opened Seqs
  import opened Events

  /** Where the pump stands inside appendEvent and markSourceDone. */
  datatype PumpPoint = Idle | MustNotify | MustClose | MustNotifyDone | Finished

  datatype ReaderPoint = Scanning | Sending(ev: StreamEvent) | Waiting | EndedOnDone | EndedOnInput

  /** The capacity of the channel a reader sends on. */
  const CAPACITY := 8

  /** A reader goroutine and the consumer of its channel. `sent` is all that went into the channel, of
      which the consumer has taken the first `received`; it listens until it abandons the channel. */
  datatype Reader = Reader(start: nat, stopOnInput: bool, idx: nat, at: ReaderPoint, sent: seq<StreamEvent>,
                           received: nat, listening: bool)

  /** `token` is the content of the notify channel, whose capacity is one. */
  datatype Relay = Relay(
    events: seq<StreamEvent>,
    sourceDone: bool,
    doneClosed: bool,
    token: bool,
    pump: PumpPoint,
    readers: seq<Reader>)

  const INITIAL := Relay([], false, false, false, Idle, [])

  datatype Step =
    | Append(ev: StreamEvent)
    | Notify
    | SetDone
    | CloseDone
    | Stream(start: nat, stopOnInput: bool)
    | Take(r: nat)
    | Send(r: nat)
    | CheckDone(r: nat)
    | WakeOnToken(r: nat)
    | WakeOnDone(r: nat)
    | Receive(r: nat)
    | Abandon(r: nat)

  predicate At(s: Relay, r: nat, p: ReaderPoint) {
    r < |s.readers| && s.readers[r].at == p
  }

  /** What is in a reader's channel, and what still fits. */
  function Queued(reader: Reader): int {
    |reader.sent| - reader.received
  }

  function Room(reader: Reader): int {
    CAPACITY - Queued(reader)
  }

  predicate Enabled(s: Relay, step: Step) {
    match step
    case Append(_) => s.pump == Idle
    case Notify => s.pump == MustNotify || s.pump == MustNotifyDone
    case SetDone => s.pump == Idle
    case CloseDone => s.pump == MustClose
    case Stream(_, _) => true
    case Take(r) => At(s, r, Scanning) && s.readers[r].idx < |s.events|
    case Send(r) => r < |s.readers| && s.readers[r].at.Sending? && Room(s.readers[r]) > 0
    case CheckDone(r) => At(s, r, Scanning) && s.readers[r].idx >= |s.events|
    case WakeOnToken(r) => At(s, r, Waiting) && s.token
    case WakeOnDone(r) => At(s, r, Waiting) && s.doneClosed
    case Receive(r) => r < |s.readers| && s.readers[r].listening && Queued(s.readers[r]) > 0
    case Abandon(r) => r < |s.readers| && s.readers[r].listening
  }

  /** The reader after a step of its own or of its consumer. */
  function Moved(s: Relay, step: Step, reader: Reader): Reader
    requires step.Take? ==> reader.idx < |s.events|
    requires step.Send? ==> reader.at.Sending?
  {
    match step
    case Take(_) => reader.(idx := reader.idx + 1, at := Sending(s.events[reader.idx]))
    case Send(_) =>
      var stops := reader.stopOnInput && reader.at.ev.kind == UserInputRequired;
      reader.(sent := reader.sent + [reader.at.ev], at := if stops then EndedOnInput else Scanning)
    case CheckDone(_) => reader.(at := if s.sourceDone then EndedOnDone else Waiting)
    case WakeOnToken(_) => reader.(at := Scanning)
    case WakeOnDone(_) => reader.(at := Scanning)
    case Receive(_) => reader.(received := reader.received + 1)
    case Abandon(_) => reader.(listening := false)
    case _ => reader
  }

  /** The reader whose step it is, or whose consumer's. */
  predicate Concerns(step: Step, r: nat) {
    match step
    case Take(q) => q == r
    case Send(q) => q == r
    case CheckDone(q) => q == r
    case WakeOnToken(q) => q == r
    case WakeOnDone(q) => q == r
    case Receive(q) => q == r
    case Abandon(q) => q == r
    case _ => false
  }

  predicate OfPump(step: Step) {
    step.Append? || step.Notify? || step.SetDone? || step.CloseDone?
  }

  function Apply(s: Relay, step: Step): Relay
    requires Enabled(s, step)
  {
    match step
    case Append(ev) => s.(events := s.events + [ev], pump := MustNotify)
    case Notify => s.(token := true, pump := if s.pump == MustNotify then Idle else Finished)
    case SetDone => s.(sourceDone := true, pump := MustClose)
    case CloseDone => s.(doneClosed := true, pump := MustNotifyDone)
    case Stream(start, stop) => s.(readers := s.readers + [Reader(start, stop, start, Scanning, [], 0, true)])
    case WakeOnToken(r) => s.(token := false, readers := s.readers[r := Moved(s, step, s.readers[r])])
    case _ => s.(readers := s.readers[step.r := Moved(s, step, s.readers[step.r])])
  }

  predicate IsRun(steps: seq<Step>)
    decreases |steps|, 0
  {
    steps == [] || (IsRun(steps[..|steps| - 1]) && Enabled(After(steps[..|steps| - 1]), steps[|steps| - 1]))
  }

  /** The relay after a run. */
  function After(steps: seq<Step>): Relay
    requires IsRun(steps)
    decreases |steps|, 1
  {
    if steps == [] then INITIAL else Apply(After(steps[..|steps| - 1]), steps[|steps| - 1])
  }

  lemma {:induction false} RunSnoc(steps: seq<Step>, step: Step)
    requires IsRun(steps) && Enabled(After(steps), step)
    ensures IsRun(steps + [step]) && After(steps + [step]) == Apply(After(steps), step)
  {
    Front(steps, step);
  }

  lemma {:induction false} Extend(steps: seq<Step>, step: Step)
    returns (longer: seq<Step>)
    requires IsRun(steps) && Enabled(After(steps), step)
    ensures longer == steps + [step] && IsRun(longer) && After(longer) == Apply(After(steps), step)
  {
    longer := steps + [step];
    RunSnoc(steps, step);
  }

  // ---------------------------------------------------------------- what every run keeps

  /** The events a reader has taken from the buffer. */
  function Taken(reader: Reader): seq<StreamEvent> {
    reader.sent + (if reader.at.Sending? then [reader.at.ev] else [])
  }

  predicate NoInput(events: seq<StreamEvent>) {
    forall i :: 0 <= i < |events| ==> events[i].kind != UserInputRequired
  }

  /** A reader's own place in the buffer. */
  ghost predicate InPlace(events: seq<StreamEvent>, reader: Reader) {
    && reader.start <= reader.idx
    && (if reader.idx <= |events| then Taken(reader) == events[reader.start..reader.idx]
        else reader.idx == reader.start && Taken(reader) == [])
  }

  /** A reader that stops on user input sends nothing after the first request. */
  ghost predicate StopsInTime(reader: Reader) {
    && (reader.stopOnInput && reader.at != EndedOnInput ==> NoInput(reader.sent))
    && (reader.at == EndedOnInput ==>
          && reader.stopOnInput && reader.sent != []
          && reader.sent[|reader.sent| - 1].kind == UserInputRequired
          && NoInput(reader.sent[..|reader.sent| - 1]))
  }

  ghost predicate ReaderOk(s: Relay, reader: Reader) {
    && InPlace(s.events, reader) && StopsInTime(reader)
    && 0 <= Queued(reader) <= CAPACITY
    && (reader.at == EndedOnDone ==> s.sourceDone && reader.idx >= |s.events|)
    && (reader.at == Waiting && s.sourceDone ==> s.pump == MustClose || s.doneClosed)
  }

  ghost predicate PumpOk(s: Relay) {
    && (s.sourceDone <==> s.pump in {MustClose, MustNotifyDone, Finished})
    && (s.doneClosed <==> s.pump in {MustNotifyDone, Finished})
  }

  ghost predicate Inv(s: Relay) {
    PumpOk(s) && forall r :: 0 <= r < |s.readers| ==> ReaderOk(s, s.readers[r])
  }

  /** The pump only adds to the buffer, and not after the source is done. */
  lemma {:induction false} PumpKeepsReader(s: Relay, t: Relay, reader: Reader)
    requires ReaderOk(s, reader)
    requires s.events <= t.events
    requires s.sourceDone ==> t.sourceDone && t.events == s.events
    requires t.sourceDone ==> t.pump == MustClose || t.doneClosed
    ensures ReaderOk(t, reader)
  {
    if reader.idx <= |s.events| {
      assert t.events[reader.start..reader.idx] == s.events[reader.start..reader.idx];
    } else if reader.idx <= |t.events| {
      assert t.events[reader.start..reader.idx] == [];
    }
  }

  lemma {:induction false} TakeKeepsReader(s: Relay, reader: Reader)
    requires ReaderOk(s, reader) && reader.at == Scanning && reader.idx < |s.events|
    ensures ReaderOk(s, Moved(s, Take(0), reader))
  {
    assert s.events[reader.start..reader.idx + 1] == s.events[reader.start..reader.idx] + [s.events[reader.idx]];
    AppendNothing(reader.sent);
  }

  lemma {:induction false} SendKeepsReader(s: Relay, reader: Reader)
    requires ReaderOk(s, reader) && reader.at.Sending? && Room(reader) > 0
    ensures ReaderOk(s, Moved(s, Send(0), reader))
  {
    var t := Moved(s, Send(0), reader);
    assert t.sent[..|t.sent| - 1] == reader.sent;
    assert Taken(t) == t.sent == Taken(reader);
  }

  /** The steps that move neither the reader's place in the buffer nor what it has sent. */
  lemma {:induction false} OtherMoveKeepsReader(s: Relay, step: Step, reader: Reader)
    requires ReaderOk(s, reader) && !step.Take? && !step.Send?
    requires step.CheckDone? ==> reader.at == Scanning && reader.idx >= |s.events|
    requires step.WakeOnToken? || step.WakeOnDone? ==> reader.at == Waiting
    requires step.Receive? ==> Queued(reader) > 0
    ensures ReaderOk(s, Moved(s, step, reader))
  {
    AppendNothing(reader.sent);
  }

  lemma {:induction false} MoveKeepsReader(s: Relay, step: Step, r: nat)
    requires r < |s.readers| && ReaderOk(s, s.readers[r]) && Enabled(s, step) && Concerns(step, r)
    ensures ReaderOk(s, Moved(s, step, s.readers[r]))
  {
    if step.Take? {
      TakeKeepsReader(s, s.readers[r]);
    } else if step.Send? {
      SendKeepsReader(s, s.readers[r]);
    } else {
      OtherMoveKeepsReader(s, step, s.readers[r]);
    }
  }

  /** What a step does to the readers: it moves at most the one it concerns. */
  lemma {:induction false} OthersStay(s: Relay, step: Step, r: nat)
    requires Enabled(s, step) && r < |s.readers|
    ensures r < |Apply(s, step).readers|
    ensures Apply(s, step).readers[r] ==
            if Concerns(step, r) then Moved(s, step, s.readers[r]) else s.readers[r]
  {
  }

  lemma {:induction false} ReaderStaysOk(s: Relay, step: Step, r: nat)
    requires Inv(s) && Enabled(s, step) && r < |s.readers|
    ensures r < |Apply(s, step).readers| && ReaderOk(Apply(s, step), Apply(s, step).readers[r])
  {
    OthersStay(s, step, r);
    if OfPump(step) {
      PumpStaysOk(s, step);
      PumpKeepsReader(s, Apply(s, step), s.readers[r]);
    } else if Concerns(step, r) {
      MoveKeepsReader(s, step, r);
    }
  }

  lemma {:induction false} PumpStaysOk(s: Relay, step: Step)
    requires PumpOk(s) && Enabled(s, step)
    ensures PumpOk(Apply(s, step))
    ensures !OfPump(step) ==> SameBuffer(s, Apply(s, step))
  {
  }

  predicate SameBuffer(s: Relay, t: Relay) {
    t.events == s.events && t.sourceDone == s.sourceDone && t.doneClosed == s.doneClosed && t.pump == s.pump
  }

  lemma {:induction false} NewReaderOk(s: Relay, start: nat, stop: bool)
    ensures ReaderOk(s, Reader(start, stop, start, Scanning, [], 0, true))
  {
    if start <= |s.events| {
      assert s.events[start..start] == [];
    }
  }

  lemma {:induction false} StepKeepsInv(s: Relay, step: Step)
    requires Inv(s) && Enabled(s, step)
    ensures Inv(Apply(s, step))
  {
    var t := Apply(s, step);
    PumpStaysOk(s, step);
    forall r | 0 <= r < |t.readers|
      ensures ReaderOk(t, t.readers[r])
    {
      if r < |s.readers| {
        ReaderStaysOk(s, step, r);
      } else {
        NewReaderOk(t, step.start, step.stopOnInput);
      }
    }
  }

  lemma {:induction false} RunKeepsInv(steps: seq<Step>)
    requires IsRun(steps)
    ensures Inv(After(steps))
  {
    if steps != [] {
      RunKeepsInv(steps[..|steps| - 1]);
      StepKeepsInv(After(steps[..|steps| - 1]), steps[|steps| - 1]);
    }
  }

  // ---------------------------------------------------------------- what readers deliver

  /** What a consumer was given. */
  function Delivered(reader: Reader): seq<StreamEvent>
    requires 0 <= Queued(reader)
  {
    reader.sent[..reader.received]
  }

  /** In every interleaving, what a reader sent is a prefix of the buffer from its start, and what its
      consumer was given is a prefix of that; a reader that ended on the done flag sent all of it; one
      that stops on user input sent nothing past the first request. */
  lemma {:induction false} ReadersDeliverPrefix(steps: seq<Step>, r: nat)
    requires IsRun(steps) && r < |After(steps).readers|
    ensures var s := After(steps);
            var reader := s.readers[r];
            && 0 <= Queued(reader) <= CAPACITY && Delivered(reader) <= reader.sent
            && (reader.start <= |s.events| ==> reader.sent <= s.events[reader.start..])
            && (reader.start > |s.events| ==> reader.sent == [])
            && (reader.at == EndedOnDone && reader.start <= |s.events| ==> reader.sent == s.events[reader.start..])
            && (reader.at == EndedOnInput ==>
                  reader.sent != [] && reader.sent[|reader.sent| - 1].kind == UserInputRequired)
            && (reader.stopOnInput && reader.sent != [] ==> NoInput(reader.sent[..|reader.sent| - 1]))
  {
    RunKeepsInv(steps);
    var s := After(steps);
    var reader := s.readers[r];
    assert ReaderOk(s, reader);
    if reader.start <= |s.events| {
      assert reader.idx <= |s.events|;
      assert s.events[reader.start..reader.idx] <= s.events[reader.start..];
      assert reader.sent <= Taken(reader);
    }
  }
}
