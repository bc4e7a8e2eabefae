/** When an attempt gives an id a second time: an event without an id is given the last one. */
module TurnIDs {
  import opened Seqs
  import opened Events
  import opened Decimal
  import opened ClientStream
  import opened Terminal
  import opened Attach
  import opened Resume
  import opened TurnAttempt

  ghost predicate DistinctIDs(events: seq<ClientEvent>) {
    forall i, j :: 0 <= i < j < |events| ==> events[i].id != events[j].id
  }

  lemma {:induction false} IdentifiedAppend(a: seq<ClientEvent>, b: seq<ClientEvent>)
    ensures Identified(a + b) == Identified(a) + Identified(b)
  {
    if b == [] {
      AppendNothing(a);
    } else {
      FrontOfSum(a, b);
      IdentifiedAppend(a, b[..|b| - 1]);
    }
  }

  lemma {:induction false} IdentifiedAll(a: seq<ClientEvent>)
    requires forall i :: 0 <= i < |a| ==> a[i].id != ""
    ensures Identified(a) == a
  {
    if a != [] {
      IdentifiedAll(a[..|a| - 1]);
      FrontAndLast(a);
    }
  }

  lemma {:induction false} IdentifiedOne(e: ClientEvent)
    ensures Identified([e]) == if e.id == "" then [] else [e]
  {
    assert [e][..0] == [];
  }

  lemma {:induction false} ItoaInjective(m: nat, n: nat)
    requires Itoa(m) == Itoa(n)
    ensures m == n
  {
    DigitsValueOfItoa(m);
    DigitsValueOfItoa(n);
  }

  lemma {:induction false} ViewIDs(turn: Turn, log: seq<StreamEvent>, k: nat, i: nat)
    returns (n: nat)
    requires k <= |log| && i < |Views(turn, log, 0, k)|
    ensures n < k && Views(turn, log, 0, k)[i].id == Itoa(n)
  {
    if i < |Views(turn, log, 0, k - 1)| {
      n := ViewIDs(turn, log, k - 1, i);
    } else {
      n := k - 1;
    }
  }

  /** The relay's events have different ids, below the one a made-up terminal takes. */
  lemma {:induction false} ViewsDistinct(turn: Turn, log: seq<StreamEvent>, k: nat)
    requires k <= |log|
    ensures DistinctIDs(Views(turn, log, 0, k))
  {
    if k > 0 {
      ViewsDistinct(turn, log, k - 1);
      var front := Views(turn, log, 0, k - 1);
      forall i, j | 0 <= i < j < |Views(turn, log, 0, k)|
        ensures Views(turn, log, 0, k)[i].id != Views(turn, log, 0, k)[j].id
      {
        if j == |front| {
          var n := ViewIDs(turn, log, k - 1, i);
          if Itoa(n) == Itoa(k - 1) {
            ItoaInjective(n, k - 1);
          }
        }
      }
    }
  }

  lemma {:induction false} ViewsAndMadeUpDistinct(turn: Turn, log: seq<StreamEvent>, term: StreamTerminal)
    requires term.kind.Some?
    ensures DistinctIDs(Views(turn, log, 0, |log|) + [SyntheticView(turn, log, term)])
  {
    var views := Views(turn, log, 0, |log|);
    ViewsDistinct(turn, log, |log|);
    forall i | 0 <= i < |views|
      ensures views[i].id != Itoa(|log|)
    {
      var n := ViewIDs(turn, log, |log|, i);
      if Itoa(n) == Itoa(|log|) {
        ItoaInjective(n, |log|);
      }
    }
  }

  /** An id that some event of the list carries. */
  ghost predicate Carries(events: seq<ClientEvent>, id: string) {
    exists i :: 0 <= i < |events| && events[i].id == id
  }

  lemma {:induction false} CarriesEither(a: seq<ClientEvent>, b: seq<ClientEvent>, id: string)
    ensures Carries(a, id) || Carries(b, id) ==> Carries(a + b, id)
  {
    if Carries(a, id) {
      var i :| 0 <= i < |a| && a[i].id == id;
      assert (a + b)[i].id == id;
    } else if Carries(b, id) {
      var j :| 0 <= j < |b| && b[j].id == id;
      assert (a + b)[|a| + j].id == id;
    }
  }

  lemma {:induction false} CarriedTwice(a: seq<ClientEvent>, b: seq<ClientEvent>, id: string)
    requires Carries(a, id) && Carries(b, id)
    ensures !DistinctIDs(a + b)
  {
    var i :| 0 <= i < |a| && a[i].id == id;
    var j :| 0 <= j < |b| && b[j].id == id;
    assert (a + b)[i].id == (a + b)[|a| + j].id;
  }

  /** The last id is carried by an event of the relay, unless it is the one from before. */
  lemma {:induction false} LastIDCarried(base: string, turn: Turn, log: seq<StreamEvent>, k: nat)
    requires k <= |log|
    ensures if Views(turn, log, 0, k) == [] then LastID(base, log, 0, k) == base
            else LastID(base, log, 0, k) != "" && Carries(Views(turn, log, 0, k), LastID(base, log, 0, k))
  {
    if k > 0 {
      LastIDCarried(base, turn, log, k - 1);
      var views := Views(turn, log, 0, k);
      if IsRetryableError(log[k - 1]) {
        AppendNothing(Views(turn, log, 0, k - 1));
      } else {
        assert views[|views| - 1].id == Itoa(k - 1);
      }
    }
  }

  /** The last id given is carried by an event given; without one, no event given has an id. */
  ghost predicate Sound(past: Past) {
    match past
    case Past(last, events) => if last == "" then Identified(events) == [] else Carries(Identified(events), last)
  }

  lemma {:induction false} AfterSound(past: Past, o: Own, n: nat)
    requires Sound(past)
    ensures Sound(After(past, o, n))
  {
    if o.attempts(n).Streams? {
      var log := o.attempts(n).log;
      StreamedCarries(past, o, n, |log|);
      IdentifiedAppend(past.events, Streamed(past, o, n, |log|));
      CarriesEither(Identified(past.events), Identified(Streamed(past, o, n, |log|)), After(past, o, n).last);
    }
  }

  /** The identified events of one attempt: the turn context if an id came before it, then the relay's. */
  lemma {:induction false} StreamedIdentified(past: Past, o: Own, n: nat, k: nat)
    requires o.attempts(n).Streams? && k <= |o.attempts(n).log|
    ensures Identified(Streamed(past, o, n, k)) ==
            (if past.last == "" then [] else [MetaView(o.turn, past.last)]) +
            Views(o.turn, o.attempts(n).log, 0, k)
  {
    var meta, views := MetaView(o.turn, past.last), Views(o.turn, o.attempts(n).log, 0, k);
    IdentifiedAppend([meta], views);
    IdentifiedOne(meta);
    ViewsHaveIds(o.turn, o.attempts(n).log, 0, k);
    IdentifiedAll(views);
  }

  lemma {:induction false} StreamedCarries(past: Past, o: Own, n: nat, k: nat)
    requires o.attempts(n).Streams? && k <= |o.attempts(n).log|
    ensures var last := LastID(past.last, o.attempts(n).log, 0, k);
            if last == "" then past.last == "" && Identified(Streamed(past, o, n, k)) == []
            else Carries(Identified(Streamed(past, o, n, k)), last)
  {
    var base, last := past.last, LastID(past.last, o.attempts(n).log, 0, k);
    StreamedIdentified(past, o, n, k);
    LastIDCarried(base, o.turn, o.attempts(n).log, k);
    var meta: seq<ClientEvent> := if base == "" then [] else [MetaView(o.turn, base)];
    CarriesEither(meta, Views(o.turn, o.attempts(n).log, 0, k), last);
    if base != "" && last == base {
      assert meta[0].id == last;
    }
  }

  /** An event without an id came after one with an id. */
  predicate Repeats(past: Past, o: Own, m: nat, k: nat, told: Told)
    requires UpTo(o, m, k)
  {
    match told
    case Failure(_) => past.last != "" || LastBefore(past, o, m, k) != ""
    case _ => past.last != ""
  }

  /** The events of the relay of attempt `m`, and its made-up terminal. */
  function RelayEvents(o: Own, m: nat, k: nat, told: Told): seq<ClientEvent>
    requires o.attempts(m).Streams? ==> k <= |o.attempts(m).log|
    requires told.MadeUp? ==> o.attempts(m).Streams? && told.term.kind.Some?
  {
    (if o.attempts(m).Streams? then Views(o.turn, o.attempts(m).log, 0, k) else []) +
    (if told.MadeUp? then [SyntheticView(o.turn, o.attempts(m).log, told.term)] else [])
  }

  lemma {:induction false} ToldIdentified(past: Past, o: Own, m: nat, k: nat, told: Told)
    requires Within(o, m, k, told)
    ensures Identified(ToldEvents(past, o, m, k, told)) ==
            if told.Failure? && LastBefore(past, o, m, k) == "" then [] else ToldEvents(past, o, m, k, told)
  {
    if !told.NoMore? {
      IdentifiedOne(ToldEvents(past, o, m, k, told)[0]);
    }
  }

  lemma {:induction false} GroupIdentified(past: Past, o: Own, m: nat, k: nat, told: Told)
    requires Within(o, m, k, told)
    ensures Identified(GroupEvents(past, o, m, k, told)) ==
            Identified(StreamPart(past, o, m, k)) + Identified(ToldEvents(past, o, m, k, told))
  {
    IdentifiedAppend(StreamPart(past, o, m, k), ToldEvents(past, o, m, k, told));
  }

  lemma {:induction false} GaveIdentified(t: ClientState, past: Past, o: Own, m: nat, k: nat, told: Told)
    requires Gave(t, past, o, m, k, told)
    ensures Identified(t.emitted) ==
            Identified(past.events) + Identified(GroupEvents(past, o, m, k, told))
  {
    IdentifiedAppend(past.events, GroupEvents(past, o, m, k, told));
  }

  lemma {:induction false} RelayEventsDistinct(o: Own, m: nat, k: nat, told: Told)
    requires o.attempts(m).Streams? ==> k <= |o.attempts(m).log|
    requires told.MadeUp? ==> o.attempts(m).Streams? && told.term.kind.Some? && k == |o.attempts(m).log|
    ensures DistinctIDs(RelayEvents(o, m, k, told))
  {
    if told.MadeUp? {
      ViewsAndMadeUpDistinct(o.turn, o.attempts(m).log, told.term);
    } else if o.attempts(m).Streams? {
      ViewsDistinct(o.turn, o.attempts(m).log, k);
      AppendNothing(Views(o.turn, o.attempts(m).log, 0, k));
    }
  }

  lemma {:induction false} FreshGroupIdentified(past: Past, o: Own, m: nat, k: nat, told: Told)
    requires Within(o, m, k, told)
    requires !Repeats(past, o, m, k, told)
    ensures Identified(GroupEvents(past, o, m, k, told)) == RelayEvents(o, m, k, told)
  {
    GroupIdentified(past, o, m, k, told);
    ToldIdentified(past, o, m, k, told);
    if o.attempts(m).Streams? {
      StreamedFirst(past, o, m, k);
    }
  }

  lemma {:induction false} NothingBefore(a: seq<ClientEvent>)
    ensures [] + a == a
  {
  }

  /** Without a repetition the events with an id are those of one relay. */
  lemma {:induction false} WithoutRepetition(t: ClientState, past: Past, o: Own, m: nat, k: nat, told: Told)
    requires Sound(past) && Gave(t, past, o, m, k, told) && !Repeats(past, o, m, k, told)
    ensures Identified(t.emitted) == RelayEvents(o, m, k, told) && DistinctIDs(Identified(t.emitted))
  {
    GaveIdentified(t, past, o, m, k, told);
    FirstIdentified(past, o, m, k, told);
    RelayEventsDistinct(o, m, k, told);
  }

  lemma {:induction false} FirstIdentified(past: Past, o: Own, m: nat, k: nat, told: Told)
    requires Sound(past) && Within(o, m, k, told) && !Repeats(past, o, m, k, told)
    ensures Identified(past.events) + Identified(GroupEvents(past, o, m, k, told)) == RelayEvents(o, m, k, told)
  {
    FreshGroupIdentified(past, o, m, k, told);
    NothingBefore(RelayEvents(o, m, k, told));
  }

  /** With one, two of them carry the same id. */
  lemma {:induction false} WithRepetition(t: ClientState, past: Past, o: Own, m: nat, k: nat, told: Told)
    requires Sound(past) && Gave(t, past, o, m, k, told) && Repeats(past, o, m, k, told)
    requires o.attempts(m).Streams? || told.Failure?
    ensures !DistinctIDs(Identified(t.emitted))
  {
    GaveIdentified(t, past, o, m, k, told);
    if past.last != "" {
      ContextRepeats(past, o, m, k, told);
    } else {
      ErrorRepeats(past, o, m, k, told);
    }
  }

  /** An event without an id after an earlier attempt's with one. */
  lemma {:induction false} ContextRepeats(past: Past, o: Own, m: nat, k: nat, told: Told)
    requires Sound(past) && Within(o, m, k, told)
    requires past.last != "" && (o.attempts(m).Streams? || told.Failure?)
    ensures !DistinctIDs(Identified(past.events) + Identified(GroupEvents(past, o, m, k, told)))
  {
    FirstIsUnnumbered(past, o, m, k, told);
    CarriedTwice(Identified(past.events), Identified(GroupEvents(past, o, m, k, told)), past.last);
  }

  /** An error after an event with an id carries that id again. */
  lemma {:induction false} ErrorRepeats(past: Past, o: Own, m: nat, k: nat, told: Told)
    requires Sound(past) && UpTo(o, m, k) && told.Failure? && LastBefore(past, o, m, k) != "" && past.last == ""
    ensures !DistinctIDs(Identified(past.events) + Identified(GroupEvents(past, o, m, k, told)))
  {
    FailureIdentified(past, o, m, k, told);
    var err := [ErrorView(o.turn, told.content, LastBefore(past, o, m, k))];
    assert err[0].id == LastBefore(past, o, m, k);
    LastIDCarried("", o.turn, o.attempts(m).log, k);
    CarriedTwice(Views(o.turn, o.attempts(m).log, 0, k), err, LastBefore(past, o, m, k));
  }

  /** The identified events are then those of the relay, and the error. */
  lemma {:induction false} FailureIdentified(past: Past, o: Own, m: nat, k: nat, told: Told)
    requires Sound(past) && UpTo(o, m, k) && told.Failure? && LastBefore(past, o, m, k) != "" && past.last == ""
    ensures o.attempts(m).Streams?
    ensures Identified(past.events) + Identified(GroupEvents(past, o, m, k, told)) ==
            Views(o.turn, o.attempts(m).log, 0, k) + [ErrorView(o.turn, told.content, LastBefore(past, o, m, k))]
  {
    NothingBefore(Identified(GroupEvents(past, o, m, k, told)));
    GroupIdentified(past, o, m, k, told);
    ToldIdentified(past, o, m, k, told);
    StreamedFirst(past, o, m, k);
  }

  lemma {:induction false} StreamedFirst(past: Past, o: Own, m: nat, k: nat)
    requires UpTo(o, m, k) && o.attempts(m).Streams? && past.last == ""
    ensures Identified(Streamed(past, o, m, k)) == Views(o.turn, o.attempts(m).log, 0, k)
  {
    StreamedIdentified(past, o, m, k);
    NothingBefore(Views(o.turn, o.attempts(m).log, 0, k));
  }

  lemma {:induction false} FirstIsUnnumbered(past: Past, o: Own, m: nat, k: nat, told: Told)
    requires Within(o, m, k, told)
    requires past.last != "" && (o.attempts(m).Streams? || told.Failure?)
    ensures Carries(Identified(GroupEvents(past, o, m, k, told)), past.last)
  {
    GroupIdentified(past, o, m, k, told);
    ToldIdentified(past, o, m, k, told);
    var group := Identified(GroupEvents(past, o, m, k, told));
    if o.attempts(m).Streams? {
      StreamedIdentified(past, o, m, k);
    }
    assert group[0].id == past.last;
  }

  /** Some event was given by the relay or by runTurn, if a line arrived. */
  lemma {:induction false} GroupIsStreamOrFailure(t: ClientState, past: Past, o: Own, m: nat, k: nat, told: Told,
                                                  c: int)
    requires GroupGave(t, past, o, m, k, told, c) && 0 < c <= |Group(o, m)|
    ensures o.attempts(m).Streams? || told.Failure?
  {
  }

  lemma {:induction false} RepeatsExactly(t: ClientState, past: Past, o: Own, m: nat, k: nat, told: Told, c: int)
    requires Sound(past) && GroupGave(t, past, o, m, k, told, c) && 0 < c <= |Group(o, m)|
    ensures DistinctIDs(Identified(t.emitted)) <==> !Repeats(past, o, m, k, told)
    ensures !Repeats(past, o, m, k, told) ==> Identified(t.emitted) == RelayEvents(o, m, k, told)
  {
    GroupIsStreamOrFailure(t, past, o, m, k, told, c);
    if Repeats(past, o, m, k, told) {
      WithRepetition(t, past, o, m, k, told);
    } else {
      WithoutRepetition(t, past, o, m, k, told);
    }
  }
}
