/** One attempt of a turn on the connection the turn was started on (runTurn in
    agentservice/handler_retry.go), as the client reads it: its attachment, and the errors runTurn writes
    itself, which carry no id. */
module TurnAttempt {
  import opened Wrappers
  import opened Seqs
  import opened Events
  import opened Decimal
  import opened ClientStream
  import opened Terminal
  import opened Attach
  import opened Verdict
  import opened TurnLoop
  import opened Resume

  /** A turn as runTurn leaves it: its attempts, how many were launched, and how many were allowed. */
  datatype Own = Own(turn: Turn, attempts: nat -> Attempt, launches: nat, maxAttempts: int, tags: Tags)

  /** Every attempt before the last was due a retry. */
  ghost predicate Legal(o: Own) {
    1 <= o.launches <= o.maxAttempts && forall n: nat :: LegalAttempt(o, n)
  }

  predicate LegalAttempt(o: Own, n: nat) {
    match o.attempts(n)
    case Streams(log, _, _, _, _) =>
      && Ended(o.turn, o.attempts(n)) && LogicalLog(log)
      && (1 <= n < o.launches ==> RetryDue(o.turn, o.attempts(n), n))
    case _ => 1 <= n < o.launches ==> RetryDue(o.turn, o.attempts(n), n)
  }

  function Lines(o: Own, n: nat): seq<Line> {
    TurnLines(o.turn, o.attempts, n, o.maxAttempts, o.tags)
  }

  function Group(o: Own, n: nat): seq<Line> {
    AttemptLines(o.turn, o.attempts(n)) + AfterAttempt(o.turn, o.attempts(n), n, o.maxAttempts, o.tags)
  }

  function End(o: Own, n: nat): AttachState
    requires o.attempts(n).Streams?
  {
    Selects(o.turn, o.attempts(n).log, o.attempts(n).enc, true, 0, o.attempts(n).picks)
  }

  // ---------------------------------------------------------------- events without an id

  /** An event that comes without an id is given the last one. */
  function MetaView(turn: Turn, last: string): ClientEvent {
    PlainEvent(MetaEvent(turn)).(id := last)
  }

  function ErrorView(turn: Turn, content: string, last: string): ClientEvent {
    PlainEvent(ClassifiedEvent(turn, content)).(id := last)
  }

  /** What the client reads of them, field by field. */
  lemma {:induction false} UnnumberedShow(turn: Turn, content: string, last: string)
    ensures ShowsMadeUp(turn, System, "turn context", last, MetaView(turn, last))
    ensures ShowsMadeUp(turn, Error, content, last, ErrorView(turn, content, last))
  {
  }

  lemma {:induction false} UnnumberedStep(s: ClientState, ev: StreamEvent)
    requires Between(s, s.lastID) && ev.kind != ToolResult && ev.kind != ToolResultPart
    ensures var t := Step(s, DataLine(ev));
            Between(t, s.lastID) && t.emitted == s.emitted + [PlainEvent(ev).(id := s.lastID)]
  {
  }

  // ---------------------------------------------------------------- what the attempts gave

  /** Events that were given, and the last id among them. */
  datatype Past = Past(last: string, events: seq<ClientEvent>)

  /** What attempt `n` adds in full. */
  function After(past: Past, o: Own, n: nat): Past {
    var a := o.attempts(n);
    if !a.Streams? then past
    else Past(LastID(past.last, a.log, 0, |a.log|), past.events + Streamed(past, o, n, |a.log|))
  }

  /** The turn context of attempt `n` and the first `k` events of its relay. */
  function Streamed(past: Past, o: Own, n: nat, k: nat): seq<ClientEvent>
    requires o.attempts(n).Streams? && k <= |o.attempts(n).log|
  {
    [MetaView(o.turn, past.last)] + Views(o.turn, o.attempts(n).log, 0, k)
  }

  /** The client has been given these events and stands between two. */
  ghost predicate HasGiven(t: ClientState, past: Past) {
    match past
    case Past(last, events) => Between(t, last) && t.emitted == events
  }

  // ---------------------------------------------------------------- retried attempts

  /** An attempt with a retryable verdict was streamed to the end of its relay, and no terminal was made up. */
  lemma {:induction false} RetryableEnd(turn: Turn, a: Attempt)
    requires a.Streams? && Ended(turn, a)
    requires var v := StreamVerdict(turn, a); !v.1 && v.0.retryable
    ensures var end := Selects(turn, a.log, a.enc, true, 0, a.picks);
            end.outcome == Closed && !LostSubscriber(end) && !SentSynthetic(a.log, end)
  {
    SelectsEnd(turn, a.log, a.enc, true, 0, a.picks);
  }

  /** Its lines: the turn context, and every event of the relay. */
  lemma {:induction false} RetryableCore(turn: Turn, a: Attempt)
    requires a.Streams? && Ended(turn, a)
    requires var v := StreamVerdict(turn, a); !v.1 && v.0.retryable
    ensures AllWritable(turn, a.log, a.enc, 0, |a.log|)
    ensures Core(AttemptLines(turn, a)) == [DataLine(MetaEvent(turn))] + Body(turn, a.log, a.enc, 0, |a.log|)
  {
    var end := Selects(turn, a.log, a.enc, true, 0, a.picks);
    RetryableEnd(turn, a);
    SelectsShape(turn, a.log, a.enc, true, 0, a.picks);
    AppendNothing([DataLine(MetaEvent(turn))] + Body(turn, a.log, a.enc, 0, |a.log|));
  }

  /** The client reads all of it. */
  lemma {:induction false} RetryableRun(past: Past, o: Own, n: nat, t: ClientState)
    returns (u: ClientState)
    requires 0 < n && o.attempts(n).Streams? && Ended(o.turn, o.attempts(n)) && LogicalLog(o.attempts(n).log)
    requires var v := StreamVerdict(o.turn, o.attempts(n)); !v.1 && v.0.retryable
    requires HasGiven(t, past)
    ensures u == Run(t, Core(AttemptLines(o.turn, o.attempts(n)))) && HasGiven(u, After(past, o, n))
  {
    var turn, a := o.turn, o.attempts(n);
    RetryableCore(turn, a);
    var meta, body := DataLine(MetaEvent(turn)), Body(turn, a.log, a.enc, 0, |a.log|);
    RunAppend(t, [meta], body);
    RunTwo(t, meta, OtherLine);
    UnnumberedStep(t, MetaEvent(turn));
    var s := Step(t, meta);
    BodyRun(s, turn, a.log, a.enc, 0, |a.log|);
    u := Run(s, body);
    Regroup(t.emitted, [MetaView(turn, t.lastID)], Views(turn, a.log, 0, |a.log|));
  }

  lemma {:induction false} RetriedVerdict(o: Own, n: nat)
    requires Legal(o) && 1 <= n < o.launches && o.attempts(n).Streams?
    ensures var v := StreamVerdict(o.turn, o.attempts(n)); !v.1 && v.0.retryable
    ensures AfterAttempt(o.turn, o.attempts(n), n, o.maxAttempts, o.tags) == []
  {
    assert LegalAttempt(o, n);
    TriesAgainExactly(o.turn, o.attempts(n), n);
  }

  lemma {:induction false} RetriedRun(past: Past, o: Own, n: nat, t: ClientState)
    requires Legal(o) && 1 <= n < o.launches && HasGiven(t, past)
    ensures HasGiven(Run(t, Group(o, n)), After(past, o, n))
  {
    assert LegalAttempt(o, n);
    if o.attempts(n).Streams? {
      RetriedVerdict(o, n);
      AppendNothing(AttemptLines(o.turn, o.attempts(n)));
      RunCore(t, Group(o, n));
      var u := RetryableRun(past, o, n, t);
    } else {
      assert Group(o, n) == [];
      RunNothing(t);
    }
  }

  // ---------------------------------------------------------------- one attempt, cut

  /** What the client was told beyond the events of the relay. */
  datatype Told = NoMore | MadeUp(term: StreamTerminal) | Failure(content: string)

  /** runTurn writes an error of its own after attempt `n`. */
  predicate WritesError(o: Own, n: nat) {
    (o.attempts(n).LaunchFails? && n > 1) || RunsOut(o.turn, o.attempts(n), n, o.maxAttempts)
  }

  function ErrorContent(o: Own, n: nat): string {
    match o.attempts(n)
    case LaunchFails(e) => o.tags.launch(e)
    case SendFails(e) => e
    case Streams(_, _, _, _, _) => o.tags.terminal(StreamVerdict(o.turn, o.attempts(n)).0.content)
  }

  predicate UpTo(o: Own, n: nat, k: nat) {
    0 < n && (o.attempts(n).Streams? ==> k <= |o.attempts(n).log|)
  }

  predicate Within(o: Own, n: nat, k: nat, told: Told) {
    UpTo(o, n, k) && (told.MadeUp? ==> o.attempts(n).Streams? && told.term.kind.Some?)
  }

  /** What attempt `n` gave when its lines were cut after `k` events. */
  function GroupEvents(past: Past, o: Own, n: nat, k: nat, told: Told): seq<ClientEvent>
    requires Within(o, n, k, told)
  {
    StreamPart(past, o, n, k) + ToldEvents(past, o, n, k, told)
  }

  function StreamPart(past: Past, o: Own, n: nat, k: nat): seq<ClientEvent>
    requires UpTo(o, n, k)
  {
    if o.attempts(n).Streams? then Streamed(past, o, n, k) else []
  }

  function ToldEvents(past: Past, o: Own, n: nat, k: nat, told: Told): seq<ClientEvent>
    requires Within(o, n, k, told)
  {
    match told
    case NoMore => []
    case MadeUp(term) => [SyntheticView(o.turn, o.attempts(n).log, term)]
    case Failure(content) => [ErrorView(o.turn, content, LastBefore(past, o, n, k))]
  }

  function LastBefore(past: Past, o: Own, n: nat, k: nat): string
    requires UpTo(o, n, k)
  {
    if o.attempts(n).Streams? then LastID(past.last, o.attempts(n).log, 0, k) else past.last
  }

  /** The client after a cut of attempt `n`. */
  ghost predicate Gave(t: ClientState, past: Past, o: Own, n: nat, k: nat, told: Told) {
    match told
    case MadeUp(term) =>
      && Within(o, n, k, told) && k == |o.attempts(n).log|
      && SentSynthetic(o.attempts(n).log, End(o, n)) && term == End(o, n).term
      && t.emitted == past.events + GroupEvents(past, o, n, k, told) && t.lastID == Itoa(k)
    case _ =>
      && Within(o, n, k, told)
      && t.emitted == past.events + GroupEvents(past, o, n, k, told) && t.lastID == LastBefore(past, o, n, k)
  }

  /** The same, when `c` lines of those that attempt `n` caused arrived: the error is told exactly when its
      line did. */
  ghost predicate GroupGave(t: ClientState, past: Past, o: Own, n: nat, k: nat, told: Told, c: int) {
    && Gave(t, past, o, n, k, told)
    && match told
       case Failure(content) =>
         && ErrorArrived(o, n, c) && content == ErrorContent(o, n)
         && (o.attempts(n).Streams? ==> k == |o.attempts(n).log|)
       case _ => !ErrorArrived(o, n, c)
  }

  predicate ErrorArrived(o: Own, n: nat, c: int) {
    WritesError(o, n) && c > |AttemptLines(o.turn, o.attempts(n))|
  }

  /** A cut inside the attachment of an attempt. */
  lemma {:induction false} AttachmentRead(past: Past, o: Own, n: nat, t: ClientState, p: seq<Line>)
    returns (k: nat, told: Told)
    requires 0 < n && o.attempts(n).Streams? && LogicalLog(o.attempts(n).log) && HasGiven(t, past)
    requires p != [] && p <= Core(AttemptLines(o.turn, o.attempts(n)))
    ensures Gave(Run(t, p), past, o, n, k, told) && !told.Failure?
    ensures p == Core(AttemptLines(o.turn, o.attempts(n))) && End(o, n).outcome == Closed ==> k == |o.attempts(n).log|
  {
    var turn, a, end := o.turn, o.attempts(n), End(o, n);
    ContextFirst(turn, a, p);
    var meta, s := DataLine(MetaEvent(turn)), Step(t, DataLine(MetaEvent(turn)));
    RunAppend(t, [meta], p[1..]);
    RunTwo(t, meta, OtherLine);
    UnnumberedStep(t, MetaEvent(turn));
    var synthetic;
    k, synthetic := CorePrefixRun(s, turn, a.log, a.enc, 0, end, p[1..]);
    told := if synthetic then MadeUp(end.term) else NoMore;
    AttachmentGave(past, o, n, t, Run(t, p), k, synthetic);
  }

  lemma {:induction false} AttachmentGave(past: Past, o: Own, n: nat, t: ClientState, u: ClientState, k: nat,
                                          synthetic: bool)
    requires 0 < n && o.attempts(n).Streams? && HasGiven(t, past) && k <= |o.attempts(n).log|
    requires synthetic ==> k == |o.attempts(n).log| && SentSynthetic(o.attempts(n).log, End(o, n))
    requires var log := o.attempts(n).log;
             && u.emitted == t.emitted + [MetaView(o.turn, t.lastID)] + Views(o.turn, log, 0, k)
                             + (if synthetic then [SyntheticView(o.turn, log, End(o, n).term)] else [])
             && u.lastID == if synthetic then Itoa(|log|) else LastID(t.lastID, log, 0, k)
    ensures Gave(u, past, o, n, k, if synthetic then MadeUp(End(o, n).term) else NoMore)
  {
    RegroupEvents(t.emitted, [MetaView(o.turn, t.lastID)], Views(o.turn, o.attempts(n).log, 0, k),
                  if synthetic then [SyntheticView(o.turn, o.attempts(n).log, End(o, n).term)] else []);
  }

  /** A cut attachment: the turn context, and a cut of the relay's events and the tail. */
  lemma {:induction false} ContextFirst(turn: Turn, a: Attempt, p: seq<Line>)
    requires a.Streams? && p != [] && p <= Core(AttemptLines(turn, a))
    ensures p == [DataLine(MetaEvent(turn))] + p[1..]
    ensures var end := Selects(turn, a.log, a.enc, true, 0, a.picks);
            && Shape(turn, a.log, a.enc, 0, end)
            && p[1..] <= Body(turn, a.log, a.enc, 0, Reached(a.log, end)) + FollowTail(turn, a.log, end)
            && (p == Core(AttemptLines(turn, a)) ==>
                  |Body(turn, a.log, a.enc, 0, Reached(a.log, end)) + Tail(turn, a.log, end)| <= |p[1..]|)
  {
    var end := Selects(turn, a.log, a.enc, true, 0, a.picks);
    SelectsShape(turn, a.log, a.enc, true, 0, a.picks);
    var meta, body, tail := DataLine(MetaEvent(turn)), Body(turn, a.log, a.enc, 0, Reached(a.log, end)),
                            Tail(turn, a.log, end);
    Regroup([meta], body, tail);
    PrefixOfTwo(p, [meta], body + tail);
    TailBelowFollowTail(turn, a.log, end, body, p[1..]);
  }

  lemma {:induction false} RegroupEvents(a: seq<ClientEvent>, b: seq<ClientEvent>, c: seq<ClientEvent>,
                                         d: seq<ClientEvent>)
    ensures a + b + c + d == a + (b + c + d)
  {
  }

  lemma {:induction false} TailBelowFollowTail(turn: Turn, log: seq<StreamEvent>, end: AttachState, body: seq<Line>,
                                               p: seq<Line>)
    requires p <= body + Tail(turn, log, end)
    ensures p <= body + FollowTail(turn, log, end)
  {
  }

  // ---------------------------------------------------------------- one attempt and what follows it, cut

  lemma {:induction false} CutOfSum(a: seq<Line>, b: seq<Line>, c: nat)
    requires c <= |a + b|
    ensures c <= |a| ==> (a + b)[..c] == a[..c]
    ensures |a| <= c ==> (a + b)[..c] == a + b[..c - |a|]
  {
  }

  /** Completion marks and blank lines, cut anywhere. */
  lemma {:induction false} MarksRun(s: ClientState, lines: seq<Line>)
    requires forall i :: 0 <= i < |lines| ==> lines[i] == DoneLine || lines[i] == OtherLine
    ensures Run(s, lines).emitted == s.emitted && Run(s, lines).lastID == s.lastID
  {
    if lines != [] {
      MarksRun(s, lines[..|lines| - 1]);
    }
  }

  /** An error of runTurn's own and the marks after it, cut after its first line. */
  lemma {:induction false} FailureRun(s: ClientState, turn: Turn, content: string, c: nat)
    requires Between(s, s.lastID) && 0 < c <= |ErrorLines(turn, content) + DONE_LINES|
    ensures var t := Run(s, (ErrorLines(turn, content) + DONE_LINES)[..c]);
            t.emitted == s.emitted + [ErrorView(turn, content, s.lastID)] && t.lastID == s.lastID
  {
    var ev := ClassifiedEvent(turn, content);
    var lines := ErrorLines(turn, content) + DONE_LINES;
    ErrorLinesAre(turn, content);
    var rest := lines[..c][1..];
    assert lines[..c] == [DataLine(ev)] + rest;
    RunAppend(s, [DataLine(ev)], rest);
    RunTwo(s, DataLine(ev), OtherLine);
    UnnumberedStep(s, ev);
    MarksRun(Step(s, DataLine(ev)), rest);
  }

  lemma {:induction false} UnnumberedLines(ev: StreamEvent)
    requires !ev.retryable
    ensures WireLines(None, [ev]) == [DataLine(ev), OtherLine]
  {
    assert [ev][..0] == [] && WireLines(None, [ev][..0]) == [];
    assert WireLines(None, [ev]) == PartLines(None, ev);
  }

  lemma {:induction false} ErrorLinesAre(turn: Turn, content: string)
    ensures ErrorLines(turn, content) + DONE_LINES ==
            [DataLine(ClassifiedEvent(turn, content)), OtherLine, DoneLine, OtherLine]
  {
    UnnumberedLines(ClassifiedEvent(turn, content));
  }

  /** The first line of an attachment is the turn context. */
  lemma {:induction false} StartsWithContext(turn: Turn, log: seq<StreamEvent>, enc: Encoder, picks: seq<Select>)
    ensures [DataLine(MetaEvent(turn))] <= Selects(turn, log, enc, true, 0, picks).lines
  {
    if picks == [] {
      UnnumberedLines(MetaEvent(turn));
    } else {
      StartsWithContext(turn, log, enc, picks[..|picks| - 1]);
      LinesGrow(turn, log, enc, Selects(turn, log, enc, true, 0, picks[..|picks| - 1]), picks[|picks| - 1]);
    }
  }

  lemma {:induction false} LinesGrow(turn: Turn, log: seq<StreamEvent>, enc: Encoder, s: AttachState, pick: Select)
    ensures s.lines <= SelectStep(turn, log, enc, true, s, pick).lines
  {
  }

  /** The core of a cut attachment is not empty. */
  lemma {:induction false} CutAttachmentCore(turn: Turn, a: Attempt, c: nat)
    requires a.Streams? && 0 < c <= |AttemptLines(turn, a)|
    ensures Core(AttemptLines(turn, a)[..c]) != []
  {
    StartsWithContext(turn, a.log, a.enc, a.picks);
    var p, meta := AttemptLines(turn, a)[..c], DataLine(MetaEvent(turn));
    assert p == [meta] + p[1..];
    CoreAppend([meta], p[1..]);
    assert [meta][..0] == [] && Core([meta]) == [meta];
  }

  /** The client after a cut of the lines that attempt `n` caused, at least one of which arrived. */
  lemma {:induction false} GroupRead(past: Past, o: Own, n: nat, t: ClientState, c: nat)
    returns (k: nat, told: Told)
    requires Legal(o) && 1 <= n && HasGiven(t, past) && 0 < c <= |Group(o, n)|
    ensures GroupGave(Run(t, Group(o, n)[..c]), past, o, n, k, told, c)
  {
    assert LegalAttempt(o, n);
    var a := o.attempts(n);
    var lines, after := AttemptLines(o.turn, a), AfterAttempt(o.turn, a, n, o.maxAttempts, o.tags);
    CutOfSum(lines, after, c);
    if c <= |lines| {
      RunCore(t, lines[..c]);
      CutAttachmentCore(o.turn, a, c);
      CoreOfPrefix(lines, c);
      k, told := AttachmentRead(past, o, n, t, Core(lines[..c]));
    } else {
      RunAppend(t, lines, after[..c - |lines|]);
      k, told := AfterRead(past, o, n, t, c - |lines|);
    }
  }

  lemma {:induction false} AfterRead(past: Past, o: Own, n: nat, t: ClientState, c: nat)
    returns (k: nat, told: Told)
    requires LegalAttempt(o, n) && 1 <= n && HasGiven(t, past)
    requires 0 < c <= |AfterAttempt(o.turn, o.attempts(n), n, o.maxAttempts, o.tags)|
    ensures Gave(Run(Run(t, AttemptLines(o.turn, o.attempts(n))),
                     AfterAttempt(o.turn, o.attempts(n), n, o.maxAttempts, o.tags)[..c]), past, o, n, k, told)
    ensures told.Failure? <==> WritesError(o, n)
    ensures told.Failure? ==>
              told.content == ErrorContent(o, n) && (o.attempts(n).Streams? ==> k == |o.attempts(n).log|)
  {
    if WritesError(o, n) {
      told := Failure(ErrorContent(o, n));
      k := ErrorRead(past, o, n, t, c);
    } else {
      k, told := MarksRead(past, o, n, t, c);
    }
  }

  /** An error of runTurn's own comes after the whole attempt. */
  lemma {:induction false} ErrorRead(past: Past, o: Own, n: nat, t: ClientState, c: nat)
    returns (k: nat)
    requires LegalAttempt(o, n) && 1 <= n && HasGiven(t, past) && WritesError(o, n)
    requires 0 < c <= |AfterAttempt(o.turn, o.attempts(n), n, o.maxAttempts, o.tags)|
    ensures Gave(Run(Run(t, AttemptLines(o.turn, o.attempts(n))),
                     AfterAttempt(o.turn, o.attempts(n), n, o.maxAttempts, o.tags)[..c]), past, o, n, k,
                 Failure(ErrorContent(o, n)))
    ensures o.attempts(n).Streams? ==> k == |o.attempts(n).log|
  {
    var a, s := o.attempts(n), t;
    if a.Streams? {
      k := |a.log|;
      RunCore(t, AttemptLines(o.turn, a));
      s := RetryableRun(past, o, n, t);
    } else {
      k := 0;
      RunNothing(t);
    }
    var after := AfterAttempt(o.turn, a, n, o.maxAttempts, o.tags);
    assert after == ErrorLines(o.turn, ErrorContent(o, n)) + DONE_LINES;
    FailureRun(s, o.turn, ErrorContent(o, n), c);
    FailureGave(past, o, n, k, Failure(ErrorContent(o, n)), Run(s, after[..c]), s);
  }

  lemma {:induction false} MarksRead(past: Past, o: Own, n: nat, t: ClientState, c: nat)
    returns (k: nat, told: Told)
    requires LegalAttempt(o, n) && 1 <= n && HasGiven(t, past) && !WritesError(o, n)
    requires 0 < c <= |AfterAttempt(o.turn, o.attempts(n), n, o.maxAttempts, o.tags)|
    ensures Gave(Run(Run(t, AttemptLines(o.turn, o.attempts(n))),
                     AfterAttempt(o.turn, o.attempts(n), n, o.maxAttempts, o.tags)[..c]), past, o, n, k, told)
    ensures !told.Failure?
  {
    var lines := AttemptLines(o.turn, o.attempts(n));
    assert AfterAttempt(o.turn, o.attempts(n), n, o.maxAttempts, o.tags) == DONE_LINES;
    k, told := WholeAttachmentRead(past, o, n, t);
    MarksRun(Run(t, lines), DONE_LINES[..c]);
    StillGave(Run(t, lines), Run(Run(t, lines), DONE_LINES[..c]), past, o, n, k, told);
  }

  lemma {:induction false} WholeAttachmentRead(past: Past, o: Own, n: nat, t: ClientState)
    returns (k: nat, told: Told)
    requires LegalAttempt(o, n) && 1 <= n && o.attempts(n).Streams? && HasGiven(t, past)
    ensures Gave(Run(t, AttemptLines(o.turn, o.attempts(n))), past, o, n, k, told) && !told.Failure?
  {
    var a := o.attempts(n);
    var lines := AttemptLines(o.turn, a);
    RunCore(t, lines);
    StartsWithContext(o.turn, a.log, a.enc, a.picks);
    CutAttachmentCore(o.turn, a, |lines|);
    Whole(lines);
    k, told := AttachmentRead(past, o, n, t, Core(lines));
  }

  lemma {:induction false} StillGave(s: ClientState, t: ClientState, past: Past, o: Own, n: nat, k: nat, told: Told)
    requires Gave(s, past, o, n, k, told) && t.emitted == s.emitted && t.lastID == s.lastID
    ensures Gave(t, past, o, n, k, told)
  {
  }

  lemma {:induction false} FailureGave(past: Past, o: Own, n: nat, k: nat, told: Told, t: ClientState, s: ClientState)
    requires 0 < n && told.Failure? && (o.attempts(n).Streams? ==> k == |o.attempts(n).log|)
    requires HasGiven(s, After(past, o, n))
    requires t.emitted == s.emitted + [ErrorView(o.turn, told.content, s.lastID)] && t.lastID == s.lastID
    ensures Gave(t, past, o, n, k, told)
  {
    var err := [ErrorView(o.turn, told.content, s.lastID)];
    if o.attempts(n).Streams? {
      Regroup(past.events, Streamed(past, o, n, k), err);
    } else {
      assert [] + err == err;
    }
  }
}
