/** The connection a turn is started on: the lines of all attempts one after the other, cut anywhere, and
    exactly when every id is given once. */
module TurnStream {
  import opened Wrappers
  import opened Events
  import opened ClientStream
  import opened TurnLoop
  import opened Resume
  import opened TurnAttempt
  import opened TurnIDs

  /** What the first `n` attempts gave in full. */
  function Given(o: Own, n: nat): Past {
    GivenBy(o, n)
  }

  function GivenBy(o: Own, n: nat): Past {
    if n == 0 then Past("", []) else After(GivenBy(o, n - 1), o, n)
  }

  /** What a client that was just opened makes of some lines. */
  function FromStart(lines: seq<Line>): ClientState {
    Run(START, lines)
  }

  lemma {:induction false} RunOn(a: seq<Line>, b: seq<Line>)
    ensures Run(FromStart(a), b) == FromStart(a + b)
  {
    RunAppend(START, a, b);
  }

  lemma {:induction false} GivenMore(o: Own, n: nat)
    requires 0 < n
    ensures Given(o, n) == After(Given(o, n - 1), o, n)
  {
  }

  lemma {:induction false} EarlierAttemptsRun(o: Own, n: nat)
    requires Legal(o) && n < o.launches
    ensures HasGiven(FromStart(Lines(o, n)), Given(o, n))
  {
    if n == 0 {
      RunNothing(START);
    } else {
      EarlierAttemptsRun(o, n - 1);
      RetriedRun(Given(o, n - 1), o, n, FromStart(Lines(o, n - 1)));
      GivenMore(o, n);
      LinesMore(o, n);
      RunOn(Lines(o, n - 1), Group(o, n));
    }
  }

  lemma {:induction false} GivenSound(o: Own, n: nat)
    ensures Sound(Given(o, n))
  {
    if n > 0 {
      GivenSound(o, n - 1);
      AfterSound(Given(o, n - 1), o, n);
    }
  }

  // ---------------------------------------------------------------- the connection, cut

  /** What the client makes of the first `cut` lines of the connection. */
  function ReadTurn(o: Own, cut: nat): ClientState
    requires cut <= |Lines(o, o.launches)|
  {
    FromStart(Lines(o, o.launches)[..cut])
  }

  /** The attempt whose lines a cut falls into: all lines before it arrived, and at least one of its own. */
  ghost predicate CutsInto(o: Own, m: nat, cut: nat) {
    0 < m && |Lines(o, m - 1)| < cut <= |Lines(o, m)|
  }

  lemma {:induction false} LinesMore(o: Own, n: nat)
    requires 0 < n
    ensures Lines(o, n) == Lines(o, n - 1) + Group(o, n) && |Lines(o, n)| == |Lines(o, n - 1)| + |Group(o, n)|
  {
  }

  lemma {:induction false} CutWithin(o: Own, m: nat, cut: nat)
    requires CutsInto(o, m, cut)
    ensures 0 < cut - |Lines(o, m - 1)| <= |Group(o, m)|
  {
    LinesMore(o, m);
  }

  function LinesOf(o: Own): nat -> seq<Line> {
    (n: nat) => Lines(o, n)
  }

  function GroupsOf(o: Own): nat -> seq<Line> {
    (n: nat) => Group(o, n)
  }

  /** Lines that are put together group by group. */
  ghost predicate Consecutive(lines: nat -> seq<Line>, groups: nat -> seq<Line>) {
    lines(0) == [] && forall n: nat :: 0 < n ==> lines(n) == lines(n - 1) + groups(n)
  }

  /** A cut falls into one of the groups. */
  lemma {:induction false} CutOfGroups(lines: nat -> seq<Line>, groups: nat -> seq<Line>, n: nat, cut: nat)
    returns (m: nat)
    requires Consecutive(lines, groups) && 0 < cut <= |lines(n)|
    ensures 0 < m <= n && |lines(m - 1)| < cut <= |lines(m)| && cut - |lines(m - 1)| <= |groups(m)|
    ensures lines(n)[..cut] == lines(m - 1) + groups(m)[..cut - |lines(m - 1)|]
  {
    CutOfSum(lines(n - 1), groups(n), cut);
    if cut <= |lines(n - 1)| {
      m := CutOfGroups(lines, groups, n - 1, cut);
    } else {
      m := n;
    }
  }

  lemma {:induction false} LinesConsecutive(o: Own)
    ensures Consecutive(LinesOf(o), GroupsOf(o))
  {
    forall n: nat | 0 < n
      ensures LinesOf(o)(n) == LinesOf(o)(n - 1) + GroupsOf(o)(n)
    {
      LinesMore(o, n);
    }
  }

  lemma {:induction false} Locate(o: Own, n: nat, cut: nat)
    returns (m: nat)
    requires 0 < cut <= |Lines(o, n)|
    ensures m <= n && CutsInto(o, m, cut) && cut - |Lines(o, m - 1)| <= |Group(o, m)|
    ensures Lines(o, n)[..cut] == Lines(o, m - 1) + Group(o, m)[..cut - |Lines(o, m - 1)|]
  {
    LinesConsecutive(o);
    m := CutOfGroups(LinesOf(o), GroupsOf(o), n, cut);
  }

  /** The client when the first `cut` lines of the connection arrived, the last of them from attempt `m`. */
  ghost predicate Delivered(t: ClientState, o: Own, m: nat, k: nat, told: Told, cut: nat) {
    CutsInto(o, m, cut) && GroupGave(t, Given(o, m - 1), o, m, k, told, cut - |Lines(o, m - 1)|)
  }

  /** However the attempts went and wherever the connection was cut, the client was given what the earlier
      attempts gave in full, and of the attempt the cut falls into the turn context, a prefix of its
      relay without retryable errors, and at most one thing more: a terminal made up, or an error of
      runTurn's own if its line arrived. */
  lemma {:induction false} TurnDelivers(o: Own, cut: nat)
    returns (m: nat, k: nat, told: Told)
    requires Legal(o) && 0 < cut <= |Lines(o, o.launches)|
    ensures m <= o.launches && Delivered(ReadTurn(o, cut), o, m, k, told, cut)
  {
    m := Locate(o, o.launches, cut);
    k, told := CutAttemptRead(o, m, cut - |Lines(o, m - 1)|);
  }

  lemma {:induction false} CutAttemptRead(o: Own, m: nat, c: nat)
    returns (k: nat, told: Told)
    requires Legal(o) && 0 < m <= o.launches && 0 < c <= |Group(o, m)|
    ensures GroupGave(FromStart(Lines(o, m - 1) + Group(o, m)[..c]), Given(o, m - 1), o, m, k, told, c)
  {
    k, told := ReadOn(o, m, c);
    RunOn(Lines(o, m - 1), Group(o, m)[..c]);
  }

  /** The attempt that was cut, read after the earlier ones. */
  lemma {:induction false} ReadOn(o: Own, m: nat, c: nat)
    returns (k: nat, told: Told)
    requires Legal(o) && 0 < m <= o.launches && 0 < c <= |Group(o, m)|
    ensures GroupGave(Run(FromStart(Lines(o, m - 1)), Group(o, m)[..c]), Given(o, m - 1), o, m, k, told, c)
  {
    EarlierAttemptsRun(o, m - 1);
    k, told := GroupRead(Given(o, m - 1), o, m, FromStart(Lines(o, m - 1)), c);
  }

  // ---------------------------------------------------------------- the condition on attempts, limit and cut

  /** The first line of the connection that carries an event without an id after one with an id: a later
      attempt's turn context, or an error of runTurn's own. */
  function RepeatingLine(o: Own, n: nat): Option<nat> {
    First(LineOf(o), n)
  }

  function LineOf(o: Own): nat -> Option<nat> {
    n => RepeatsIn(o, n)
  }

  function EndOf(o: Own): nat -> nat {
    n => |Lines(o, n)|
  }

  /** The same among the lines that attempt `n` caused. */
  function RepeatsIn(o: Own, n: nat): Option<nat> {
    if n == 0 then None
    else if Group(o, n) != [] && Given(o, n - 1).last != "" then Some(|Lines(o, n - 1)|)
    else if RunsOut(o.turn, o.attempts(n), n, o.maxAttempts) && Given(o, n).last != ""
    then Some(|Lines(o, n - 1)| + |AttemptLines(o.turn, o.attempts(n))|)
    else None
  }

  /** The first that is there, up to `n`. */
  function First(line: nat -> Option<nat>, n: nat): Option<nat> {
    if n == 0 then None
    else if First(line, n - 1).Some? then First(line, n - 1)
    else line(n)
  }

  /** Line numbers that lie in consecutive stretches, which begin at `ends(n - 1)` and end before `ends(n)`. */
  ghost predicate InStretches(line: nat -> Option<nat>, ends: nat -> nat) {
    forall n: nat :: 0 < n ==> InStretch(line(n), ends(n - 1), ends(n))
  }

  predicate InStretch(line: Option<nat>, begin: nat, end: nat) {
    begin <= end && (line.Some? ==> begin <= line.value < end)
  }

  lemma {:induction false} FirstBelow(line: nat -> Option<nat>, ends: nat -> nat, n: nat)
    requires InStretches(line, ends)
    ensures First(line, n).Some? ==> First(line, n).value < ends(n)
  {
    if n > 0 {
      FirstBelow(line, ends, n - 1);
      assert InStretch(line(n), ends(n - 1), ends(n));
    }
  }

  lemma {:induction false} FirstLater(line: nat -> Option<nat>, ends: nat -> nat, m: nat, n: nat)
    requires InStretches(line, ends) && m <= n
    ensures First(line, m).Some? ==> First(line, n) == First(line, m)
    ensures First(line, m) == None && First(line, n).Some? ==> ends(m) <= First(line, n).value
    ensures ends(m) <= ends(n)
  {
    if m < n {
      FirstLater(line, ends, m, n - 1);
      assert InStretch(line(n), ends(n - 1), ends(n));
    }
  }

  /** Whether the first has arrived with `cut` lines is decided up to the stretch that the cut falls into. */
  lemma {:induction false} FirstArrived(line: nat -> Option<nat>, ends: nat -> nat, m: nat, n: nat, cut: nat)
    requires InStretches(line, ends) && 0 < m <= n && ends(m - 1) < cut <= ends(m)
    ensures First(line, n).Some? && First(line, n).value < cut <==>
            First(line, m - 1).Some? || (line(m).Some? && line(m).value < cut)
  {
    FirstBelow(line, ends, m - 1);
    FirstLater(line, ends, m, n);
  }

  lemma {:induction false} LastIDStays(base: string, log: seq<StreamEvent>, k: nat)
    requires k <= |log| && base != ""
    ensures LastID(base, log, 0, k) != ""
  {
    if k > 0 {
      LastIDStays(base, log, k - 1);
    }
  }

  lemma {:induction false} GivenLastStays(o: Own, m: nat, n: nat)
    requires m <= n && Given(o, m).last != ""
    ensures Given(o, n).last != ""
  {
    if m < n {
      GivenLastStays(o, m, n - 1);
      if o.attempts(n).Streams? {
        LastIDStays(Given(o, n - 1).last, o.attempts(n).log, |o.attempts(n).log|);
      }
    }
  }

  /** An error of runTurn's own comes after the attachment. */
  lemma {:induction false} ErrorAfterAttachment(o: Own, n: nat)
    requires RunsOut(o.turn, o.attempts(n), n, o.maxAttempts)
    ensures |AttemptLines(o.turn, o.attempts(n))| < |Group(o, n)|
  {
    ErrorLinesAre(o.turn, ErrorContent(o, n));
  }

  lemma {:induction false} RepeatsInBounds(o: Own, n: nat)
    requires 0 < n
    ensures InStretch(RepeatsIn(o, n), |Lines(o, n - 1)|, |Lines(o, n)|)
  {
    LinesMore(o, n);
    if RunsOut(o.turn, o.attempts(n), n, o.maxAttempts) {
      ErrorAfterAttachment(o, n);
    }
  }

  lemma {:induction false} RepeatsWhatWasGiven(o: Own, n: nat)
    requires RepeatsIn(o, n).Some?
    ensures Given(o, n).last != ""
  {
    if Given(o, n - 1).last != "" {
      GivenLastStays(o, n - 1, n);
    }
  }

  lemma {:induction false} FirstIsOne(line: nat -> Option<nat>, n: nat)
    returns (i: nat)
    requires First(line, n).Some?
    ensures 0 < i <= n && line(i) == First(line, n)
  {
    if First(line, n - 1).Some? {
      i := FirstIsOne(line, n - 1);
    } else {
      i := n;
    }
  }

  /** After a repeating line there is an id that was given. */
  lemma {:induction false} GivenBefore(o: Own, n: nat)
    requires RepeatingLine(o, n).Some?
    ensures Given(o, n).last != ""
  {
    var i := FirstIsOne(LineOf(o), n);
    RepeatsWhatWasGiven(o, i);
    GivenLastStays(o, i, n);
  }

  /** That line has arrived. */
  predicate RepetitionArrived(o: Own, cut: nat) {
    RepeatingLine(o, o.launches).Some? && RepeatingLine(o, o.launches).value < cut
  }

  /** Only the attempts up to the one the cut falls into matter. */
  lemma {:induction false} ArrivalSeen(o: Own, m: nat, cut: nat)
    requires 0 < m <= o.launches && CutsInto(o, m, cut)
    ensures RepetitionArrived(o, cut) <==>
            RepeatingLine(o, m - 1).Some? || (RepeatsIn(o, m).Some? && RepeatsIn(o, m).value < cut)
  {
    LinesInStretches(o);
    FirstArrived(LineOf(o), EndOf(o), m, o.launches, cut);
  }

  lemma {:induction false} LinesInStretches(o: Own)
    ensures InStretches(LineOf(o), EndOf(o))
  {
    forall n: nat | 0 < n
      ensures InStretch(LineOf(o)(n), EndOf(o)(n - 1), EndOf(o)(n))
    {
      LineInStretch(o, n);
    }
  }

  lemma {:induction false} LineInStretch(o: Own, n: nat)
    requires 0 < n
    ensures InStretch(LineOf(o)(n), EndOf(o)(n - 1), EndOf(o)(n))
  {
    RepeatsInBounds(o, n);
  }

  lemma {:induction false} RepeatsHere(t: ClientState, o: Own, m: nat, k: nat, told: Told, cut: nat)
    requires Delivered(t, o, m, k, told, cut)
    ensures Repeats(Given(o, m - 1), o, m, k, told) <==> RepeatsIn(o, m).Some? && RepeatsIn(o, m).value < cut
  {
    LinesMore(o, m);
    GivenMore(o, m);
  }

  lemma {:induction false} RepeatsBefore(o: Own, m: nat, k: nat, told: Told)
    requires UpTo(o, m, k) && RepeatingLine(o, m - 1).Some?
    ensures Repeats(Given(o, m - 1), o, m, k, told)
  {
    GivenBefore(o, m - 1);
  }

  lemma {:induction false} RepeatsIsArrival(t: ClientState, o: Own, m: nat, k: nat, told: Told, cut: nat)
    requires m <= o.launches && Delivered(t, o, m, k, told, cut)
    ensures Repeats(Given(o, m - 1), o, m, k, told) <==> RepetitionArrived(o, cut)
  {
    ArrivalSeen(o, m, cut);
    RepeatsHere(t, o, m, k, told, cut);
    if RepeatingLine(o, m - 1).Some? {
      RepeatsBefore(o, m, k, told);
    }
  }

  /** Exactly when every id is given once on the connection a turn is started on, for all attempts, any
      limit and any cut: if and only if no line with an event without an id has arrived after an event
      with one. Then the events with an id are those of the relay of one attempt, in order and whole,
      and at most its made-up terminal. */
  lemma {:induction false} IDsGivenOnceExactly(o: Own, cut: nat)
    returns (m: nat, k: nat, told: Told)
    requires Legal(o) && 0 < cut <= |Lines(o, o.launches)|
    ensures m <= o.launches && Delivered(ReadTurn(o, cut), o, m, k, told, cut)
    ensures DistinctIDs(Identified(ReadTurn(o, cut).emitted)) <==> !RepetitionArrived(o, cut)
    ensures !RepetitionArrived(o, cut) ==> Identified(ReadTurn(o, cut).emitted) == RelayEvents(o, m, k, told)
  {
    m, k, told := TurnDelivers(o, cut);
    DeliveredExactly(ReadTurn(o, cut), o, m, k, told, cut);
  }

  lemma {:induction false} DeliveredExactly(t: ClientState, o: Own, m: nat, k: nat, told: Told, cut: nat)
    requires m <= o.launches && Delivered(t, o, m, k, told, cut)
    ensures DistinctIDs(Identified(t.emitted)) <==> !RepetitionArrived(o, cut)
    ensures !RepetitionArrived(o, cut) ==> Identified(t.emitted) == RelayEvents(o, m, k, told)
  {
    RepeatsIsArrival(t, o, m, k, told, cut);
    DistinctUnlessRepeated(t, o, m, k, told, cut);
  }

  lemma {:induction false} DistinctUnlessRepeated(t: ClientState, o: Own, m: nat, k: nat, told: Told, cut: nat)
    requires Delivered(t, o, m, k, told, cut)
    ensures DistinctIDs(Identified(t.emitted)) <==> !Repeats(Given(o, m - 1), o, m, k, told)
    ensures !Repeats(Given(o, m - 1), o, m, k, told) ==> Identified(t.emitted) == RelayEvents(o, m, k, told)
  {
    GivenSound(o, m - 1);
    CutWithin(o, m, cut);
    RepeatsExactly(t, Given(o, m - 1), o, m, k, told, cut - |Lines(o, m - 1)|);
  }

  /** With a single attempt: an id is given twice exactly when its terminal was retryable, no attempt
      remained, the relay holds an event that is not a retryable error, and the error's line arrived. */
  lemma {:induction false} OneAttemptExactly(o: Own, cut: nat)
    requires Legal(o) && o.launches == 1 && o.attempts(1).Streams? && 0 < cut <= |Lines(o, 1)|
    ensures DistinctIDs(Identified(ReadTurn(o, cut).emitted)) <==>
            || !RunsOut(o.turn, o.attempts(1), 1, o.maxAttempts)
            || LastViewID(o.attempts(1).log, 0, |o.attempts(1).log|) == ""
            || cut <= |AttemptLines(o.turn, o.attempts(1))|
  {
    var m, k, told := IDsGivenOnceExactly(o, cut);
    LinesMore(o, 1);
    assert First(LineOf(o), 0) == None && RepeatingLine(o, 1) == RepeatsIn(o, 1);
    assert Lines(o, 0) == [] && Given(o, 0).last == "";
  }
}
