/** Exactly once from the connection a turn is started on through any number of follows, and where the code
    does not keep it. */
module TurnSession {
  import opened Wrappers
  import opened Seqs
  import opened Events
  import opened Decimal
  import opened ClientStream
  import opened Terminal
  import opened Attach
  import opened TurnLoop
  import opened Follow
  import opened Resume
  import opened TurnAttempt
  import opened TurnIDs
  import opened TurnStream

  /** What the caller holds when the turn's connection was cut. */
  function OwnCaller(o: Own, cut: nat): Caller
    requires cut <= |Lines(o, o.launches)|
  {
    Caller(ReadTurn(o, cut).lastID, Identified(ReadTurn(o, cut).emitted))
  }

  lemma {:induction false} LastIDKept(base: string, log: seq<StreamEvent>, k: nat, n: nat)
    requires k <= n <= |log| && LastID(base, log, 0, k) != ""
    ensures LastID(base, log, 0, n) != ""
  {
    if k < n {
      LastIDKept(base, log, k, n - 1);
    }
  }

  /** After an attempt that was tried again nothing is told beyond its relay. */
  lemma {:induction false} RetriedTellsNoMore(past: Past, o: Own, t: ClientState, m: nat, k: nat, told: Told)
    requires Legal(o) && 0 < m < o.launches && Gave(t, past, o, m, k, told) && (told.Failure? ==> WritesError(o, m))
    ensures told.NoMore?
  {
    assert LegalAttempt(o, m);
    if told.MadeUp? {
      RetriedVerdict(o, m);
      RetryableEnd(o.turn, o.attempts(m));
    }
  }

  /** An attempt that was tried again and wrote nothing under an id leaves the caller where it started. */
  lemma {:induction false} RetriedLeavesNothing(past: Past, o: Own, t: ClientState, m: nat, k: nat)
    requires Sound(past) && past.last == "" && After(past, o, m).last == "" && Gave(t, past, o, m, k, NoMore)
    ensures Identified(t.emitted) == [] && t.lastID == ""
  {
    WithoutRepetition(t, past, o, m, k, NoMore);
    if o.attempts(m).Streams? {
      RetriedWithoutIDs(o.turn, o.attempts(m).log, k);
    }
  }

  lemma {:induction false} RetriedWithoutIDs(turn: Turn, log: seq<StreamEvent>, k: nat)
    requires k <= |log| && LastID("", log, 0, |log|) == ""
    ensures LastID("", log, 0, k) == "" && Views(turn, log, 0, k) == []
  {
    LastIDCarried("", turn, log, k);
    if LastID("", log, 0, k) != "" {
      LastIDKept("", log, k, |log|);
    }
  }

  /** No id before means none in any part. */
  lemma {:induction false} NoneGiven(o: Own, m: nat, n: nat)
    requires m <= n && Given(o, n).last == ""
    ensures Given(o, m).last == ""
  {
    if Given(o, m).last != "" {
      GivenLastStays(o, m, n);
    }
  }

  lemma {:induction false} NobodyStandsAtTheStart(turn: Turn, log: seq<StreamEvent>)
    requires |log| < MAX_INT
    ensures StandsAt(turn, log, "", [], 0, None)
  {
  }

  /** Where a caller stands whose connection gave it the relay up to `k`. */
  lemma {:induction false} StandsAfterEvents(turn: Turn, log: seq<StreamEvent>, k: nat)
    returns (r: nat)
    requires k <= |log| < MAX_INT
    ensures r <= |log| && StandsAt(turn, log, LastID("", log, 0, k), Views(turn, log, 0, k), r, None)
  {
    NobodyStandsAtTheStart(turn, log);
    PartOfTheLog(turn, log, "", 0, k);
    NothingBefore(Views(turn, log, 0, k));
    r := ResumePoint(log, 0, k);
  }

  lemma {:induction false} StandsWithOutcome(turn: Turn, log: seq<StreamEvent>, term: StreamTerminal)
    requires |log| < MAX_INT && term.kind.Some?
    ensures StandsAt(turn, log, Itoa(|log|), Views(turn, log, 0, |log|) + [SyntheticView(turn, log, term)],
                     |log|, Some(term))
  {
    AllWithOutcome(turn, log, 0, term);
    NothingBefore(Views(turn, log, 0, |log|) + [SyntheticView(turn, log, term)]);
  }

  /** Where a caller stands that holds `kept` and was given `seen`, the repeated error set aside. */
  ghost predicate Standing(o: Own, repeated: bool, kept: string, seen: seq<ClientEvent>, r: nat,
                           outcome: Option<StreamTerminal>)
    requires o.attempts(o.launches).Streams?
  {
    var log := o.attempts(o.launches).log;
    && r <= |log|
    && if !repeated then StandsAt(o.turn, log, kept, seen, r, outcome) else
         && seen == Views(o.turn, log, 0, |log|) + [ErrorView(o.turn, ErrorContent(o, o.launches), kept)]
         && StandsAt(o.turn, log, kept, Views(o.turn, log, 0, |log|), r, outcome)
  }

  lemma {:induction false} EarlierAttemptStands(past: Past, o: Own, t: ClientState, m: nat, k: nat, told: Told)
    requires Legal(o) && 0 < m < o.launches && o.attempts(o.launches).Streams? && Gave(t, past, o, m, k, told)
    requires |o.attempts(o.launches).log| < MAX_INT
    requires Sound(past) && past.last == "" && After(past, o, m).last == "" && (told.Failure? ==> WritesError(o, m))
    ensures told.NoMore? && Standing(o, false, t.lastID, Identified(t.emitted), 0, None)
  {
    RetriedTellsNoMore(past, o, t, m, k, told);
    RetriedLeavesNothing(past, o, t, m, k);
    NobodyStandsAtTheStart(o.turn, o.attempts(o.launches).log);
  }

  /** Where the caller stands after the last attempt, cut anywhere. */
  lemma {:induction false} LastAttemptStands(past: Past, o: Own, t: ClientState, k: nat, told: Told)
    returns (r: nat, outcome: Option<StreamTerminal>)
    requires var n := o.launches;
             && o.attempts(n).Streams? && |o.attempts(n).log| < MAX_INT && Sound(past) && past.last == ""
             && Gave(t, past, o, n, k, told) && !Repeats(past, o, n, k, told)
    ensures Standing(o, false, t.lastID, Identified(t.emitted), r, outcome)
  {
    var log := o.attempts(o.launches).log;
    WithoutRepetition(t, past, o, o.launches, k, told);
    if told.MadeUp? {
      StandsWithOutcome(o.turn, log, told.term);
      r, outcome := |log|, Some(told.term);
    } else {
      r := StandsAfterEvents(o.turn, log, k);
      outcome := None;
      AppendNothing(Views(o.turn, log, 0, k));
    }
  }

  /** After the error: all of the relay, and the error once more under the last id. */
  lemma {:induction false} ErrorAfterAll(past: Past, o: Own, t: ClientState, told: Told)
    returns (r: nat)
    requires var n := o.launches;
             && o.attempts(n).Streams? && |o.attempts(n).log| < MAX_INT && Sound(past) && past.last == ""
             && Gave(t, past, o, n, |o.attempts(n).log|, told) && told == Failure(ErrorContent(o, n)) && t.lastID != ""
    ensures Standing(o, true, t.lastID, Identified(t.emitted), r, None)
  {
    var n := o.launches;
    var log := o.attempts(n).log;
    GaveIdentified(t, past, o, n, |log|, told);
    FailureIdentified(past, o, n, |log|, told);
    r := StandsAfterEvents(o.turn, log, |log|);
  }

  /** Follows add to what the caller had, and what they add depends on the id it held alone. */
  lemma {:induction false} FollowsAdd(turn: Turn, log: seq<StreamEvent>, kept: string, a: seq<ClientEvent>,
                                      cs: seq<Connection>)
    ensures var with, without := Session(turn, log, Caller(kept, a), cs), Session(turn, log, Caller(kept, []), cs);
            with.kept == without.kept && with.seen == a + without.seen
  {
    if cs == [] {
      AppendNothing(a);
    } else {
      var front, c := cs[..|cs| - 1], cs[|cs| - 1];
      FollowsAdd(turn, log, kept, a, front);
      var without := Session(turn, log, Caller(kept, []), front);
      var from := ParseFollowFrom(without.kept, "", c.bufLen);
      if from.Ok? && from.value >= 0 {
        Regroup(a, without.seen, Identified(Read(turn, log, from.value, c).emitted));
      }
    }
  }

  lemma {:induction false} BuffersGrowAlike(turn: Turn, log: seq<StreamEvent>, kept: string, a: seq<ClientEvent>,
                                            b: seq<ClientEvent>, cs: seq<Connection>)
    requires BuffersGrow(turn, log, Caller(kept, a), cs)
    ensures BuffersGrow(turn, log, Caller(kept, b), cs)
  {
    forall i | 0 <= i < |cs|
      ensures Session(turn, log, Caller(kept, b), cs[..i]).kept == Session(turn, log, Caller(kept, a), cs[..i]).kept
    {
      FollowsAdd(turn, log, kept, a, cs[..i]);
      FollowsAdd(turn, log, kept, b, cs[..i]);
    }
  }

  lemma {:induction false} CutStands(past: Past, o: Own, t: ClientState, m: nat, k: nat, told: Told, c: int)
    returns (r: nat, outcome: Option<StreamTerminal>)
    requires Legal(o) && 0 < m <= o.launches && o.attempts(o.launches).Streams?
    requires GroupGave(t, past, o, m, k, told, c)
    requires |o.attempts(o.launches).log| < MAX_INT && Sound(past) && past.last == ""
    requires m < o.launches ==> After(past, o, m).last == ""
    ensures Standing(o, Repeats(past, o, m, k, told), t.lastID, Identified(t.emitted), r, outcome)
  {
    if m < o.launches {
      EarlierAttemptStands(past, o, t, m, k, told);
      r, outcome := 0, None;
    } else if Repeats(past, o, m, k, told) {
      r := ErrorAfterAll(past, o, t, told);
      outcome := None;
    } else {
      r, outcome := LastAttemptStands(past, o, t, k, told);
    }
  }

  /** Where the caller stands when the turn's connection was cut. */
  lemma {:induction false} OwnConnectionStands(o: Own, cut: nat)
    returns (r: nat, outcome: Option<StreamTerminal>)
    requires Legal(o) && cut <= |Lines(o, o.launches)| && o.attempts(o.launches).Streams?
    requires |o.attempts(o.launches).log| < MAX_INT && Given(o, o.launches - 1).last == ""
    ensures Standing(o, RepetitionArrived(o, cut), OwnCaller(o, cut).kept, OwnCaller(o, cut).seen, r, outcome)
  {
    if cut == 0 {
      RunNothing(START);
      NobodyStandsAtTheStart(o.turn, o.attempts(o.launches).log);
      r, outcome := 0, None;
    } else {
      var m, k, told := TurnDelivers(o, cut);
      RepeatsIsArrival(ReadTurn(o, cut), o, m, k, told, cut);
      NothingInThePast(o, m);
      r, outcome := CutStands(Given(o, m - 1), o, ReadTurn(o, cut), m, k, told, cut - |Lines(o, m - 1)|);
    }
  }

  lemma {:induction false} NothingInThePast(o: Own, m: nat)
    requires 0 < m <= o.launches && Given(o, o.launches - 1).last == ""
    ensures var past := Given(o, m - 1);
            Sound(past) && past.last == "" && (m < o.launches ==> After(past, o, m).last == "")
  {
    GivenSound(o, m - 1);
    NoneGiven(o, m - 1, o.launches - 1);
    if m < o.launches {
      NoneGiven(o, m, o.launches - 1);
      GivenMore(o, m);
    }
  }

  /** What a caller holds is without repetition wherever it stands. */
  lemma {:induction false} StandingIsDistinct(turn: Turn, log: seq<StreamEvent>, kept: string, seen: seq<ClientEvent>,
                                              r: nat, outcome: Option<StreamTerminal>)
    requires r <= |log| && StandsAt(turn, log, kept, seen, r, outcome)
    ensures DistinctIDs(seen)
  {
    match outcome
    case None => ViewsDistinct(turn, log, r);
    case Some(term) => ViewsAndMadeUpDistinct(turn, log, term);
  }

  /** Exactly once, from the connection the turn was started on through any number of follows, each cut
      between any two lines: the caller has been given the events of the relay up to some index, in
      order, each once and whole, and its next follow starts there; or all of them and the outcome. The
      one exception is a retryable error after the last attempt: if runTurn's own error arrives after
      an event with an id, it is given under that id again, and nothing else is repeated or missing. */
  lemma {:induction false} ExactlyOnceFromTheStart(o: Own, cut: nat, cs: seq<Connection>)
    returns (r: nat, outcome: Option<StreamTerminal>, more: seq<ClientEvent>)
    requires Legal(o) && cut <= |Lines(o, o.launches)| && o.attempts(o.launches).Streams?
    requires |o.attempts(o.launches).log| < MAX_INT && Given(o, o.launches - 1).last == ""
    requires BuffersGrow(o.turn, o.attempts(o.launches).log, OwnCaller(o, cut), cs)
    ensures var log, start := o.attempts(o.launches).log, OwnCaller(o, cut);
            var caller := Session(o.turn, log, start, cs);
            && caller.seen == start.seen + more && r <= |log|
            && (DistinctIDs(caller.seen) <==> !RepetitionArrived(o, cut))
            && (!RepetitionArrived(o, cut) ==> StandsAt(o.turn, log, caller.kept, caller.seen, r, outcome))
            && (RepetitionArrived(o, cut) ==>
                  && start.seen == Views(o.turn, log, 0, |log|)
                                   + [ErrorView(o.turn, ErrorContent(o, o.launches), start.kept)]
                  && StandsAt(o.turn, log, caller.kept, Views(o.turn, log, 0, |log|) + more, r, outcome))
  {
    var log, start := o.attempts(o.launches).log, OwnCaller(o, cut);
    assert LegalAttempt(o, o.launches);
    var r0, outcome0 := OwnConnectionStands(o, cut);
    var stood := if RepetitionArrived(o, cut) then Views(o.turn, log, 0, |log|) else start.seen;
    BuffersGrowAlike(o.turn, log, start.kept, start.seen, stood, cs);
    r, outcome := ExactlyOnceAcrossCuts(o.turn, log, Caller(start.kept, stood), r0, outcome0, cs);
    FollowsAdd(o.turn, log, start.kept, start.seen, cs);
    FollowsAdd(o.turn, log, start.kept, stood, cs);
    more := Session(o.turn, log, Caller(start.kept, []), cs).seen;
    if RepetitionArrived(o, cut) {
      RepeatedStays(o, cut, more);
    } else {
      StandingIsDistinct(o.turn, log, Session(o.turn, log, start, cs).kept, start.seen + more, r, outcome);
    }
  }

  lemma {:induction false} RepeatedStays(o: Own, cut: nat, more: seq<ClientEvent>)
    requires Legal(o) && cut <= |Lines(o, o.launches)| && RepetitionArrived(o, cut)
    ensures !DistinctIDs(OwnCaller(o, cut).seen + more)
  {
    var m, k, told := IDsGivenOnceExactly(o, cut);
    var seen := OwnCaller(o, cut).seen;
    var i, j :| 0 <= i < j < |seen| && seen[i].id == seen[j].id;
    assert (seen + more)[i].id == (seen + more)[j].id;
  }

  // ---------------------------------------------------------------- where the code does not keep it

  /** A turn of one attempt, all of whose relay is streamed. */
  function Single(turn: Turn, log: seq<StreamEvent>, enc: Encoder, picks: seq<Select>, tags: Tags): Own {
    Own(turn, _ => Streams(log, enc, picks, Unregistered, false), 1, 1, tags)
  }

  lemma {:induction false} TwoEventsClose(turn: Turn, text: StreamEvent, err: StreamEvent, enc: Encoder)
    requires text.kind == Text && IsRetryableError(err)
    ensures Selects(turn, [text, err], enc, true, 0, [Next, Next, Next]).outcome == Closed
  {
    var log := [text, err];
    assert [Next, Next, Next][..2] == [Next, Next] && [Next, Next][..1] == [Next] && [Next][..0] == [];
    var s := Selects(turn, log, enc, true, 0, []);
    assert !s.suspended;
    var t := Selects(turn, log, enc, true, 0, [Next]);
    assert t == WriteEvent(turn, enc, true, s, text);
    var u := Selects(turn, log, enc, true, 0, [Next, Next]);
    assert u == WriteEvent(turn, enc, true, t, err);
  }

  /** The smallest case: one text and a retryable error, and no attempt remains. The error that runTurn
      writes is given to the caller under the id of the text. */
  lemma {:induction false} ErrorUnderTheTextsID(turn: Turn, text: StreamEvent, err: StreamEvent, enc: Encoder,
                                                tags: Tags)
    requires text.kind == Text && IsRetryableError(err)
    ensures var o := Single(turn, [text, err], enc, [Next, Next, Next], tags);
            var t := ReadTurn(o, |Lines(o, 1)|);
            && Legal(o) && RepetitionArrived(o, |Lines(o, 1)|) && t.lastID == Itoa(0)
            && Identified(t.emitted) == [View(turn, [text, err], 0), ErrorView(turn, ErrorContent(o, 1), Itoa(0))]
  {
    var log := [text, err];
    var o := Single(turn, log, enc, [Next, Next, Next], tags);
    TwoEventsClose(turn, text, err, enc);
    assert RetryDue(turn, o.attempts(1), 1) by {
      assert IsRetryableError(log[1]);
    }
    TriesAgainExactly(turn, o.attempts(1), 1);
    assert LastID("", log, 0, 1) == Itoa(0) && LastID("", log, 0, 2) == Itoa(0);
    SingleRunsOut(o, log);
    assert Views(turn, log, 0, 1) == [View(turn, log, 0)];
  }

  lemma {:induction false} SingleRunsOut(o: Own, log: seq<StreamEvent>)
    requires Legal(o) && o.launches == 1 && o.attempts(1).Streams? && o.attempts(1).log == log && |log| < MAX_INT
    requires RunsOut(o.turn, o.attempts(1), 1, o.maxAttempts) && LastID("", log, 0, |log|) != ""
    ensures var t := ReadTurn(o, |Lines(o, 1)|);
            && RepetitionArrived(o, |Lines(o, 1)|) && t.lastID == LastID("", log, 0, |log|)
            && Identified(t.emitted) == Views(o.turn, log, 0, |log|) + [ErrorView(o.turn, ErrorContent(o, 1), t.lastID)]
  {
    LinesMore(o, 1);
    ErrorLinesAre(o.turn, ErrorContent(o, 1));
    var cut := |Lines(o, 1)|;
    OneAttemptExactly(o, cut);
    var m, k, told := TurnDelivers(o, cut);
    RepeatsIsArrival(ReadTurn(o, cut), o, m, k, told, cut);
    NothingInThePast(o, 1);
    var r := ErrorAfterAll(Given(o, 0), o, ReadTurn(o, cut), told);
  }

  /** The lines and events of the first attempts depend on them alone. */
  lemma {:induction false} SameAttempts(o: Own, p: Own, n: nat)
    requires p == o.(attempts := p.attempts) && forall m: nat :: m <= n ==> p.attempts(m) == o.attempts(m)
    ensures Lines(p, n) == Lines(o, n) && Given(p, n) == Given(o, n)
  {
    if n > 0 {
      SameAttempts(o, p, n - 1);
    }
  }

  /** The client after all the lines of the attempts that were tried again. */
  lemma {:induction false} BetweenAttempts(o: Own, n: nat)
    requires Legal(o) && n < o.launches
    ensures |Lines(o, n)| <= |Lines(o, o.launches)|
    ensures OwnCaller(o, |Lines(o, n)|) == Caller(Given(o, n).last, Identified(Given(o, n).events))
  {
    EarlierAttemptsRun(o, n);
    PrefixLines(o, n, o.launches);
    assert Lines(o, o.launches)[..|Lines(o, n)|] == Lines(o, n);
  }

  lemma {:induction false} PrefixLines(o: Own, m: nat, n: nat)
    requires m <= n
    ensures Lines(o, m) <= Lines(o, n)
  {
    if m < n {
      PrefixLines(o, m, n - 1);
      LinesMore(o, n);
      PrefixOfSum(Lines(o, m), Lines(o, n - 1), Group(o, n));
    }
  }

  lemma {:induction false} PrefixOfSum(p: seq<Line>, a: seq<Line>, b: seq<Line>)
    requires p <= a
    ensures p <= a + b
  {
  }

  /** The turn with another last attempt, of one event that the subscriber does not stay for. */
  function Relaunched(o: Own, ev: StreamEvent, enc: Encoder): Own {
    o.(attempts := (n: nat) =>
         if n == o.launches then Streams([ev], enc, [ClientGone], Unregistered, false) else o.attempts(n))
  }

  lemma {:induction false} RelaunchedLegal(o: Own, ev: StreamEvent, enc: Encoder)
    requires Legal(o) && Logical(ev)
    ensures Legal(Relaunched(o, ev, enc))
  {
    forall n: nat
      ensures LegalAttempt(Relaunched(o, ev, enc), n)
    {
      assert LegalAttempt(o, n);
      assert [ClientGone][..0] == [];
    }
  }

  lemma {:induction false} StandsElsewhere(turn: Turn, ev: StreamEvent, kept: string, seen: seq<ClientEvent>, r: nat,
                                           outcome: Option<StreamTerminal>)
    requires seen != [] && ev.kind == Text && ev.content != seen[0].text && r <= 1
    ensures !StandsAt(turn, [ev], kept, seen, r, outcome)
  {
    assert Views(turn, [ev], 0, 0) == [] && Views(turn, [ev], 0, 1) == [View(turn, [ev], 0)];
    assert View(turn, [ev], 0).text == ev.content;
  }

  /** An attempt that is tried again must not have written anything under an id: else there is a relay of the
      next attempt, and a cut between the two, where the caller does not stand at any index of it. */
  lemma {:induction false} RelaunchLosesThePlace(o: Own, enc: Encoder)
    returns (ev: StreamEvent)
    requires Legal(o) && Given(o, o.launches - 1).last != ""
    ensures var other, cut := Relaunched(o, ev, enc), |Lines(o, o.launches - 1)|;
            && Legal(other) && cut <= |Lines(other, o.launches)|
            && forall r: nat, outcome :: r <= 1 ==>
                 !StandsAt(o.turn, [ev], OwnCaller(other, cut).kept, OwnCaller(other, cut).seen, r, outcome)
  {
    var n := o.launches - 1;
    var seen := Identified(Given(o, n).events);
    GivenSound(o, n);
    ev := Blank(Text).(content := seen[0].text + "x");
    var other := Relaunched(o, ev, enc);
    RelaunchedLegal(o, ev, enc);
    SameAttempts(o, other, n);
    BetweenAttempts(other, n);
    forall r: nat, outcome | r <= 1
      ensures !StandsAt(o.turn, [ev], Given(o, n).last, seen, r, outcome)
    {
      StandsElsewhere(o.turn, ev, Given(o, n).last, seen, r, outcome);
    }
  }
}
