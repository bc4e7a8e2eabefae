/** The supplementary file events of a turn: a merge of all sources by priority
    (artifact/analyzer/reconcile.go). */
module Reconcile {
  import opened Seqs
  import Artifacts

  const STRUCTURED_TOOL := 1
  const SHELL_PARSER := 2
  const GIT_DIFF := 3
  const SNAPSHOT := 4
  const STRUCTURED_OUT := 5

  /** sourceForToolName. */
  function SourceOf(tool: string): nat {
    if Artifacts.IsTier1(tool) then STRUCTURED_TOOL
    else if Artifacts.IsShellTool(tool) then SHELL_PARSER
    else if tool == "reconcile:git" then GIT_DIFF
    else if tool == "reconcile:snapshot" then SNAPSHOT
    else if "reconcile:" <= tool then STRUCTURED_OUT
    else STRUCTURED_TOOL
  }

  datatype SystemEvent = SystemEvent(sessionID: string, turnID: string, correlationID: string, key: string,
                                     actualPath: string, operation: string, occurredAt: int, toolName: string)

  /** A change found afterwards, with the time at which it is added. */
  datatype Found = Found(path: string, operation: string, at: int)

  datatype Input = Input(sessionID: string, turnID: string, correlationID: string, existing: seq<SystemEvent>,
                         git: seq<Found>, snapshot: seq<Found>, structured: seq<Found>)

  /** Path normalisation for the session: the key and the absolute path. */
  datatype Normalizer = Normalizer(key: string -> string, abs: string -> string)

  datatype Candidate = Candidate(key: string, operation: string, toolName: string, absPath: string, source: nat,
                                 at: int)

  datatype Report = Report(path: string, operation: string, toolName: string, source: nat, at: int)

  predicate Counts(r: Report) {
    r.path != "" && r.operation != ""
  }

  function KeyOf(n: Normalizer, path: string): string {
    if n.key(path) == "" then path else n.key(path)
  }

  function CandidateOf(n: Normalizer, r: Report): Candidate {
    Candidate(KeyOf(n, r.path), r.operation, r.toolName, n.abs(r.path), r.source, r.at)
  }

  /** A candidate wins over one that is already there. */
  predicate Beats(c: Candidate, other: Candidate) {
    c.source < other.source || (c.source == other.source && c.at > other.at)
  }

  function Offered(byKey: map<string, Candidate>, c: Candidate): map<string, Candidate> {
    if c.key in byKey && !Beats(c, byKey[c.key]) then byKey else byKey[c.key := c]
  }

  /** The candidates among the reports, in order. */
  function Candidates(n: Normalizer, rs: seq<Report>): seq<Candidate> {
    if rs == [] then []
    else Candidates(n, rs[..|rs| - 1]) + (if Counts(rs[|rs| - 1]) then [CandidateOf(n, rs[|rs| - 1])] else [])
  }

  function Merged(cs: seq<Candidate>): map<string, Candidate> {
    if cs == [] then map[] else Offered(Merged(cs[..|cs| - 1]), cs[|cs| - 1])
  }

  // ---------------------------------------------------------------- the merge is by priority

  ghost predicate Unbeaten(cs: seq<Candidate>, c: Candidate) {
    c in cs && forall d <- cs :: d.key == c.key ==> !Beats(d, c)
  }

  /** The merge keeps, for exactly the keys that occur, a candidate that no other one of its key beats. */
  lemma {:induction false} MergedWinners(cs: seq<Candidate>)
    ensures forall k <- Merged(cs) :: Merged(cs)[k].key == k && Unbeaten(cs, Merged(cs)[k])
    ensures forall c <- cs :: c.key in Merged(cs)
  {
    if cs != [] {
      var front, last := cs[..|cs| - 1], cs[|cs| - 1];
      MergedWinners(front);
      FrontAndLast(cs);
      var m := Merged(front);
      forall k | k in Merged(cs)
        ensures Merged(cs)[k].key == k && Unbeaten(cs, Merged(cs)[k])
      {
        var c := Merged(cs)[k];
        forall d <- cs | d.key == c.key
          ensures !Beats(d, c)
        {
          if d in front {
            assert d.key in m && !Beats(d, m[k]);
          }
        }
      }
    }
  }

  /** Two candidates of one key and source never have the same time. */
  ghost predicate DistinctTimes(cs: seq<Candidate>) {
    forall c, d :: c in cs && d in cs && c.key == d.key && c.source == d.source && c.at == d.at ==> c == d
  }

  /** With distinct times the merge does not depend on the order, nor on repetitions, of its input. */
  lemma {:induction false} OrderDoesNotMatter(cs: seq<Candidate>, ds: seq<Candidate>)
    requires DistinctTimes(cs) && forall c :: c in cs <==> c in ds
    ensures Merged(cs) == Merged(ds)
  {
    MergedWinners(cs);
    MergedWinners(ds);
    var a, b := Merged(cs), Merged(ds);
    forall k | k in a
      ensures k in b && a[k] == b[k]
    {
      assert a[k] in ds && k in b;
      assert b[k] in cs;
      assert !Beats(a[k], b[k]) && !Beats(b[k], a[k]);
    }
    forall k | k in b
      ensures k in a
    {
      assert b[k] in cs;
    }
  }

  // ---------------------------------------------------------------- the input as reports

  function ReportOf(e: SystemEvent): Report {
    Report(e.key, e.operation, e.toolName, SourceOf(e.toolName), e.occurredAt)
  }

  function ExistingReports(existing: seq<SystemEvent>): (rs: seq<Report>)
    ensures |rs| == |existing|
    ensures forall i :: 0 <= i < |rs| ==>
              rs[i] == ReportOf(existing[i])
  {
    if existing == [] then []
    else ExistingReports(existing[..|existing| - 1]) + [ReportOf(existing[|existing| - 1])]
  }

  function FoundReports(found: seq<Found>, tool: string, source: nat): (rs: seq<Report>)
    ensures |rs| == |found|
    ensures forall i :: 0 <= i < |rs| ==> rs[i] == Report(found[i].path, found[i].operation, tool, source, found[i].at)
  {
    if found == [] then []
    else
      var f := found[|found| - 1];
      FoundReports(found[..|found| - 1], tool, source) + [Report(f.path, f.operation, tool, source, f.at)]
  }

  function Reports(inp: Input): seq<Report> {
    ExistingReports(inp.existing) + FoundReports(inp.git, "reconcile:git", GIT_DIFF)
    + FoundReports(inp.snapshot, "reconcile:snapshot", SNAPSHOT)
    + FoundReports(inp.structured, "reconcile:structured", STRUCTURED_OUT)
  }

  lemma {:induction false} CandidatesAre(n: Normalizer, rs: seq<Report>)
    ensures forall c :: c in Candidates(n, rs) <==>
                        exists i :: 0 <= i < |rs| && Counts(rs[i]) && c == CandidateOf(n, rs[i])
  {
    if rs != [] {
      var front, last := rs[..|rs| - 1], rs[|rs| - 1];
      CandidatesAre(n, front);
      forall c
        ensures c in Candidates(n, rs) <==> exists i :: 0 <= i < |rs| && Counts(rs[i]) && c == CandidateOf(n, rs[i])
      {
        if c in Candidates(n, front) {
          var i :| 0 <= i < |front| && Counts(front[i]) && c == CandidateOf(n, front[i]);
          assert rs[i] == front[i];
        } else if c in Candidates(n, rs) {
          assert c == CandidateOf(n, last) && Counts(last);
          assert rs[|rs| - 1] == last;
        }
        if i :| 0 <= i < |rs| && Counts(rs[i]) && c == CandidateOf(n, rs[i]) {
          if i < |front| {
            assert rs[i] == front[i];
          }
        }
      }
    }
  }

  // ---------------------------------------------------------------- what comes out

  /** Keys of the live events, as stored. */
  ghost predicate LiveKey(inp: Input, key: string) {
    exists i :: 0 <= i < |inp.existing| && SourceOf(inp.existing[i].toolName) <= SHELL_PARSER
                && inp.existing[i].key == key
  }

  function EventFor(inp: Input, c: Candidate): SystemEvent {
    SystemEvent(inp.sessionID, inp.turnID, inp.correlationID, c.key, c.absPath, c.operation, c.at, c.toolName)
  }

  /** A key for which a supplementary event is due. */
  ghost predicate Due(inp: Input, n: Normalizer, key: string) {
    var m := Merged(Candidates(n, Reports(inp)));
    key in m && m[key].source > SHELL_PARSER && !LiveKey(inp, key)
  }

  /** The output, in any order: one event for each key that is due, made from its winner. */
  ghost predicate Supplements(inp: Input, n: Normalizer, out: seq<SystemEvent>) {
    var m := Merged(Candidates(n, Reports(inp)));
    && (forall i :: 0 <= i < |out| ==> Due(inp, n, out[i].key) && out[i] == EventFor(inp, m[out[i].key]))
    && (forall i, j :: 0 <= i < j < |out| ==> out[i].key != out[j].key)
    && (forall key :: Due(inp, n, key) ==> exists i :: 0 <= i < |out| && out[i].key == key)
  }

  /** A key is due exactly when it was reported, by found changes or earlier supplements only: no
      structured or shell event has it, as stored or after normalising. */
  lemma {:induction false} DueExactly(inp: Input, n: Normalizer, key: string)
    ensures Due(inp, n, key) <==>
            && !LiveKey(inp, key)
            && (exists r <- Reports(inp) :: Counts(r) && KeyOf(n, r.path) == key)
            && (forall r <- Reports(inp) :: Counts(r) && KeyOf(n, r.path) == key ==> r.source > SHELL_PARSER)
  {
    var rs := Reports(inp);
    var cs := Candidates(n, rs);
    CandidatesAre(n, rs);
    MergedWinners(cs);
    var m := Merged(cs);
    if key in m {
      var i :| 0 <= i < |rs| && Counts(rs[i]) && m[key] == CandidateOf(n, rs[i]);
      assert rs[i] in rs;
    }
    forall r <- rs | Counts(r) && KeyOf(n, r.path) == key
      ensures key in m && m[key].source <= r.source
    {
      assert CandidateOf(n, r) in cs;
      assert !Beats(CandidateOf(n, r), m[key]);
    }
  }

  /** With the stored keys normalised: a key with a structured or shell event yields nothing, and every
      other reported key is due. */
  lemma {:induction false} DueWhenNormalised(inp: Input, n: Normalizer, key: string)
    requires forall i :: 0 <= i < |inp.existing| ==> KeyOf(n, inp.existing[i].key) == inp.existing[i].key
    ensures Due(inp, n, key) <==>
            !LiveKey(inp, key) && exists r <- Reports(inp) :: Counts(r) && KeyOf(n, r.path) == key
  {
    DueExactly(inp, n, key);
    if !LiveKey(inp, key) {
      forall r <- Reports(inp) | Counts(r) && KeyOf(n, r.path) == key
        ensures r.source > SHELL_PARSER
      {
        ReportsOrigin(inp, r);
      }
    }
  }

  lemma {:induction false} ReportsOrigin(inp: Input, r: Report)
    requires r in Reports(inp)
    ensures r.source > SHELL_PARSER ||
            exists i :: 0 <= i < |inp.existing| && inp.existing[i].key == r.path
                        && SourceOf(inp.existing[i].toolName) == r.source
  {
    var e, g, s := ExistingReports(inp.existing), FoundReports(inp.git, "reconcile:git", GIT_DIFF),
                   FoundReports(inp.snapshot, "reconcile:snapshot", SNAPSHOT);
    if r in e {
      var i :| 0 <= i < |e| && e[i] == r;
      assert inp.existing[i].key == r.path;
    } else if r in g {
    } else if r in s {
    } else {
      assert r in FoundReports(inp.structured, "reconcile:structured", STRUCTURED_OUT);
    }
  }

  // ---------------------------------------------------------------- in terms of the input

  /** An event that a turn's own tools left, as against one that an earlier reconciliation added. */
  predicate IsLive(tool: string) {
    !("reconcile:" <= tool)
  }

  /** How a supplement ranks by its tool: changes found by git first, then those of the snapshot. */
  function Rank(tool: string): nat {
    if tool == "reconcile:git" then 3 else if tool == "reconcile:snapshot" then 4 else 5
  }

  lemma {:induction false} SourceExactly(tool: string)
    ensures IsLive(tool) <==> SourceOf(tool) <= SHELL_PARSER
    ensures !IsLive(tool) ==> SourceOf(tool) == Rank(tool)
    ensures SourceOf(tool) == SHELL_PARSER <==> tool in {"command_execution", "Bash", "shell", "shell_command"}
  {
    if "reconcile:" <= tool {
      assert tool[0] == 'r';
      assert !Artifacts.IsTier1(tool) && !Artifacts.IsShellTool(tool);
    }
    if tool in {"reconcile:git", "reconcile:snapshot"} {
      assert "reconcile:" <= tool;
    }
    if Artifacts.IsShellTool(tool) {
      assert !Artifacts.IsTier1(tool);
    }
  }

  /** The key of a path: the one it is normalised to, or the path. */
  predicate HasKey(n: Normalizer, path: string, key: string) {
    path != "" && key == if n.key(path) == "" then path else n.key(path)
  }

  /** A change found afterwards, or an earlier supplement, with this key. */
  predicate FoundWith(found: seq<Found>, n: Normalizer, key: string) {
    exists f <- found :: f.operation != "" && HasKey(n, f.path, key)
  }

  predicate StoredWith(inp: Input, n: Normalizer, key: string, live: bool) {
    exists x <- inp.existing :: IsLive(x.toolName) == live && x.operation != "" && HasKey(n, x.key, key)
  }

  /** A report of the input comes from one of its four lists. */
  lemma {:induction false} ReportFrom(inp: Input, r: Report)
    requires r in Reports(inp)
    ensures || (exists x <- inp.existing ::
                  r == Report(x.key, x.operation, x.toolName, SourceOf(x.toolName), x.occurredAt))
            || (exists f <- inp.git :: r == Report(f.path, f.operation, "reconcile:git", 3, f.at))
            || (exists f <- inp.snapshot :: r == Report(f.path, f.operation, "reconcile:snapshot", 4, f.at))
            || (exists f <- inp.structured :: r == Report(f.path, f.operation, "reconcile:structured", 5, f.at))
  {
    var e, g, s, t := ExistingReports(inp.existing), FoundReports(inp.git, "reconcile:git", GIT_DIFF),
                      FoundReports(inp.snapshot, "reconcile:snapshot", SNAPSHOT),
                      FoundReports(inp.structured, "reconcile:structured", STRUCTURED_OUT);
    if r in e {
      var i :| 0 <= i < |e| && e[i] == r;
      assert inp.existing[i] in inp.existing;
    } else if r in g {
      var i :| 0 <= i < |g| && g[i] == r;
      assert inp.git[i] in inp.git;
    } else if r in s {
      var i :| 0 <= i < |s| && s[i] == r;
      assert inp.snapshot[i] in inp.snapshot;
    } else {
      var i :| 0 <= i < |t| && t[i] == r;
      assert inp.structured[i] in inp.structured;
    }
  }

  lemma {:induction false} StoredIsReport(inp: Input, x: SystemEvent)
    requires x in inp.existing
    ensures Report(x.key, x.operation, x.toolName, SourceOf(x.toolName), x.occurredAt) in Reports(inp)
  {
    var i :| 0 <= i < |inp.existing| && inp.existing[i] == x;
    assert ExistingReports(inp.existing)[i] == ReportOf(x);
    assert ReportOf(x) in ExistingReports(inp.existing);
  }

  lemma {:induction false} FoundIsReport(inp: Input, f: Found)
    ensures f in inp.git ==> Report(f.path, f.operation, "reconcile:git", 3, f.at) in Reports(inp)
    ensures f in inp.snapshot ==> Report(f.path, f.operation, "reconcile:snapshot", 4, f.at) in Reports(inp)
    ensures f in inp.structured ==> Report(f.path, f.operation, "reconcile:structured", 5, f.at) in Reports(inp)
  {
    if f in inp.git {
      FoundReported(inp.git, "reconcile:git", GIT_DIFF, f);
    }
    if f in inp.snapshot {
      FoundReported(inp.snapshot, "reconcile:snapshot", SNAPSHOT, f);
    }
    if f in inp.structured {
      FoundReported(inp.structured, "reconcile:structured", STRUCTURED_OUT, f);
    }
  }

  lemma {:induction false} FoundReported(found: seq<Found>, tool: string, source: nat, f: Found)
    requires f in found
    ensures Report(f.path, f.operation, tool, source, f.at) in FoundReports(found, tool, source)
  {
    var i :| 0 <= i < |found| && found[i] == f;
    assert FoundReports(found, tool, source)[i] == Report(f.path, f.operation, tool, source, f.at);
  }

  /** When a key yields a supplement, from the input alone: if and only if some change found or some earlier
      supplement has it, and no live event has it, as stored or after normalising. */
  lemma {:induction false} DueFromInput(inp: Input, n: Normalizer, key: string)
    ensures Due(inp, n, key) <==>
            && (|| FoundWith(inp.git, n, key) || FoundWith(inp.snapshot, n, key) || FoundWith(inp.structured, n, key)
                || StoredWith(inp, n, key, false))
            && !StoredWith(inp, n, key, true)
            && forall x <- inp.existing :: IsLive(x.toolName) ==> x.key != key
  {
    DueExactly(inp, n, key);
    KeyReported(inp, n, key);
    LiveReported(inp, n, key);
    LiveKeyStored(inp, key);
  }

  lemma {:induction false} LiveKeyStored(inp: Input, key: string)
    ensures LiveKey(inp, key) <==> exists x <- inp.existing :: IsLive(x.toolName) && x.key == key
  {
    if LiveKey(inp, key) {
      var i :| 0 <= i < |inp.existing| && SourceOf(inp.existing[i].toolName) <= SHELL_PARSER
               && inp.existing[i].key == key;
      SourceExactly(inp.existing[i].toolName);
      assert inp.existing[i] in inp.existing;
    }
    if x :| x in inp.existing && IsLive(x.toolName) && x.key == key {
      var i :| 0 <= i < |inp.existing| && inp.existing[i] == x;
      SourceExactly(x.toolName);
    }
  }

  lemma {:induction false} KeyReported(inp: Input, n: Normalizer, key: string)
    ensures (exists r <- Reports(inp) :: Counts(r) && KeyOf(n, r.path) == key) <==>
            || FoundWith(inp.git, n, key) || FoundWith(inp.snapshot, n, key) || FoundWith(inp.structured, n, key)
            || StoredWith(inp, n, key, false) || StoredWith(inp, n, key, true)
  {
    if r :| r in Reports(inp) && Counts(r) && KeyOf(n, r.path) == key {
      ReportFrom(inp, r);
    }
    if FoundWith(inp.git, n, key) || FoundWith(inp.snapshot, n, key) || FoundWith(inp.structured, n, key) {
      FoundKeyReported(inp, n, key);
    }
    if x :| x in inp.existing && x.operation != "" && HasKey(n, x.key, key) {
      StoredIsReport(inp, x);
    }
  }

  lemma {:induction false} FoundKeyReported(inp: Input, n: Normalizer, key: string)
    requires FoundWith(inp.git, n, key) || FoundWith(inp.snapshot, n, key) || FoundWith(inp.structured, n, key)
    ensures exists r <- Reports(inp) :: Counts(r) && KeyOf(n, r.path) == key
  {
    var f: Found :| (f in inp.git || f in inp.snapshot || f in inp.structured) && f.operation != ""
                    && HasKey(n, f.path, key);
    FoundIsReport(inp, f);
  }

  lemma {:induction false} LiveReported(inp: Input, n: Normalizer, key: string)
    ensures (forall r <- Reports(inp) :: Counts(r) && KeyOf(n, r.path) == key ==> r.source > SHELL_PARSER) <==>
            !StoredWith(inp, n, key, true)
  {
    forall r <- Reports(inp) | Counts(r) && KeyOf(n, r.path) == key && r.source <= SHELL_PARSER
      ensures StoredWith(inp, n, key, true)
    {
      ReportFrom(inp, r);
      SourceOfReport(inp, r);
    }
    if x :| x in inp.existing && IsLive(x.toolName) && x.operation != "" && HasKey(n, x.key, key) {
      StoredIsReport(inp, x);
      SourceExactly(x.toolName);
    }
  }

  /** The supplement made from a report, field by field. */
  predicate MadeFrom(inp: Input, n: Normalizer, e: SystemEvent, path: string, operation: string, at: int,
                     tool: string) {
    && HasKey(n, path, e.key) && operation != ""
    && e.sessionID == inp.sessionID && e.turnID == inp.turnID && e.correlationID == inp.correlationID
    && e.actualPath == n.abs(path) && e.operation == operation && e.occurredAt == at && e.toolName == tool
  }

  /** No other report of the key ranks before it, and none of its rank is later. */
  predicate Ranks(n: Normalizer, e: SystemEvent, path: string, operation: string, at: int, tool: string) {
    operation != "" && HasKey(n, path, e.key) ==>
      Rank(e.toolName) < Rank(tool) || (Rank(e.toolName) == Rank(tool) && at <= e.occurredAt)
  }

  /** What a supplement says: it is made from a change found, or from an earlier supplement, and of all those with
      its key from one of the first rank and the latest of that rank. */
  lemma {:induction false} SupplementSays(inp: Input, n: Normalizer, out: seq<SystemEvent>, i: nat)
    requires Supplements(inp, n, out) && i < |out|
    ensures || (exists f <- inp.git :: MadeFrom(inp, n, out[i], f.path, f.operation, f.at, "reconcile:git"))
            || (exists f <- inp.snapshot :: MadeFrom(inp, n, out[i], f.path, f.operation, f.at, "reconcile:snapshot"))
            || (exists f <- inp.structured ::
                  MadeFrom(inp, n, out[i], f.path, f.operation, f.at, "reconcile:structured"))
            || (exists x <- inp.existing ::
                  !IsLive(x.toolName) && MadeFrom(inp, n, out[i], x.key, x.operation, x.occurredAt, x.toolName))
    ensures forall f <- inp.git :: Ranks(n, out[i], f.path, f.operation, f.at, "reconcile:git")
    ensures forall f <- inp.snapshot :: Ranks(n, out[i], f.path, f.operation, f.at, "reconcile:snapshot")
    ensures forall f <- inp.structured :: Ranks(n, out[i], f.path, f.operation, f.at, "reconcile:structured")
    ensures forall x <- inp.existing ::
              !IsLive(x.toolName) ==> Ranks(n, out[i], x.key, x.operation, x.occurredAt, x.toolName)
  {
    var r := WinningReport(inp, n, out, i);
    ReportFrom(inp, r);
    SourceOfReport(inp, r);
    forall f: Found
      ensures f in inp.git ==> Ranks(n, out[i], f.path, f.operation, f.at, "reconcile:git")
      ensures f in inp.snapshot ==> Ranks(n, out[i], f.path, f.operation, f.at, "reconcile:snapshot")
      ensures f in inp.structured ==> Ranks(n, out[i], f.path, f.operation, f.at, "reconcile:structured")
    {
      FoundIsReport(inp, f);
    }
    forall x <- inp.existing | !IsLive(x.toolName)
      ensures Ranks(n, out[i], x.key, x.operation, x.occurredAt, x.toolName)
    {
      StoredIsReport(inp, x);
      SourceExactly(x.toolName);
    }
  }

  /** The report that a supplement is made from: none of its key has a smaller source, nor the same and a later
      time. */
  lemma {:induction false} WinningReport(inp: Input, n: Normalizer, out: seq<SystemEvent>, i: nat)
    returns (r: Report)
    requires Supplements(inp, n, out) && i < |out|
    ensures r in Reports(inp) && r.source > SHELL_PARSER
    ensures MadeFrom(inp, n, out[i], r.path, r.operation, r.at, r.toolName)
    ensures forall q <- Reports(inp) :: q.operation != "" && HasKey(n, q.path, out[i].key) ==>
              r.source < q.source || (r.source == q.source && q.at <= r.at)
  {
    var cs := Candidates(n, Reports(inp));
    var key := out[i].key;
    MergedWinners(cs);
    var c := Merged(cs)[key];
    CandidatesAre(n, Reports(inp));
    var k :| 0 <= k < |Reports(inp)| && Counts(Reports(inp)[k]) && c == CandidateOf(n, Reports(inp)[k]);
    r := Reports(inp)[k];
    forall q <- Reports(inp) | Counts(q) && KeyOf(n, q.path) == key
      ensures !Beats(CandidateOf(n, q), c)
    {
      assert CandidateOf(n, q) in cs;
    }
  }

  lemma {:induction false} SourceOfReport(inp: Input, r: Report)
    requires r in Reports(inp)
    ensures r.source == SourceOf(r.toolName)
    ensures IsLive(r.toolName) <==> r.source <= SHELL_PARSER
    ensures !IsLive(r.toolName) ==> r.source == Rank(r.toolName)
  {
    ReportFrom(inp, r);
    SourceExactly(r.toolName);
  }

  // ---------------------------------------------------------------- the operations

  lemma {:induction false} MergedSnoc(cs: seq<Candidate>, c: Candidate)
    ensures Merged(cs + [c]) == Offered(Merged(cs), c)
  {
    Front(cs, c);
  }

  lemma {:induction false} CandidatesSnoc(n: Normalizer, rs: seq<Report>, r: Report)
    ensures Candidates(n, rs + [r]) == if Counts(r) then Candidates(n, rs) + [CandidateOf(n, r)] else Candidates(n, rs)
  {
    Front(rs, r);
    AppendNothing(Candidates(n, rs));
  }

  /** The `add` calls of one loop, after the candidates already merged. */
  method AddAll(n: Normalizer, rs: seq<Report>, byKey: map<string, Candidate>, ghost before: seq<Report>)
    returns (m: map<string, Candidate>)
    requires byKey == Merged(Candidates(n, before))
    ensures m == Merged(Candidates(n, before + rs))
  {
    m := byKey;
    AppendNothing(before);
    for i := 0 to |rs|
      invariant m == Merged(Candidates(n, before + rs[..i]))
    {
      var r := rs[i];
      ghost var sofar := before + rs[..i];
      OneMore(rs, i);
      Regroup(before, rs[..i], [r]);
      CandidatesSnoc(n, sofar, r);
      if r.path != "" && r.operation != "" {
        var c := CandidateOf(n, r);
        MergedSnoc(Candidates(n, sofar), c);
        if c.key !in m || Beats(c, m[c.key]) {
          m := m[c.key := c];
        }
      }
    }
    Whole(rs);
  }

  method RealtimeKeys(inp: Input) returns (keys: set<string>)
    ensures forall k :: k in keys <==> LiveKey(inp, k)
  {
    keys := {};
    for i := 0 to |inp.existing|
      invariant forall k :: k in keys <==>
                  exists j :: 0 <= j < i && SourceOf(inp.existing[j].toolName) <= SHELL_PARSER
                              && inp.existing[j].key == k
    {
      if SourceOf(inp.existing[i].toolName) <= SHELL_PARSER {
        keys := keys + {inp.existing[i].key};
      }
    }
  }

  method Reconcile(inp: Input, n: Normalizer) returns (out: seq<SystemEvent>)
    ensures Supplements(inp, n, out)
  {
    var live := RealtimeKeys(inp);
    var existing := ExistingReports(inp.existing);
    var git := FoundReports(inp.git, "reconcile:git", GIT_DIFF);
    var snapshot := FoundReports(inp.snapshot, "reconcile:snapshot", SNAPSHOT);
    var structured := FoundReports(inp.structured, "reconcile:structured", STRUCTURED_OUT);
    assert [] + existing == existing;
    var byKey := AddAll(n, existing, map[], []);
    byKey := AddAll(n, git, byKey, existing);
    byKey := AddAll(n, snapshot, byKey, existing + git);
    byKey := AddAll(n, structured, byKey, existing + git + snapshot);
    var events := EventsOf(inp, n, byKey, live);
    out := DedupEvents(events);
    DedupedSupplements(inp, n, events, out);
  }

  /** The events of the keys in `done` that are due, one each. */
  ghost predicate Gathered(inp: Input, byKey: map<string, Candidate>, live: set<string>, done: set<string>,
                           out: seq<SystemEvent>) {
    && (forall i :: 0 <= i < |out| ==>
          && out[i].key in done && out[i].key in byKey && byKey[out[i].key].source > SHELL_PARSER && out[i].key !in live
          && out[i] == EventFor(inp, byKey[out[i].key]))
    && (forall i, j :: 0 <= i < j < |out| ==> out[i].key != out[j].key)
    && (forall k <- done :: k in byKey && byKey[k].source > SHELL_PARSER && k !in live ==>
          exists i :: 0 <= i < |out| && out[i].key == k)
  }

  lemma {:induction false} GatheredMore(inp: Input, byKey: map<string, Candidate>, live: set<string>, done: set<string>,
                                        out: seq<SystemEvent>, k: string)
    requires Gathered(inp, byKey, live, done, out) && k !in done && k in byKey && byKey[k].key == k
    ensures byKey[k].source <= SHELL_PARSER || k in live ==> Gathered(inp, byKey, live, done + {k}, out)
    ensures byKey[k].source > SHELL_PARSER && k !in live ==>
              Gathered(inp, byKey, live, done + {k}, out + [EventFor(inp, byKey[k])])
  {
    var more := out + [EventFor(inp, byKey[k])];
    if byKey[k].source > SHELL_PARSER && k !in live {
      forall x <- done + {k} | x in byKey && byKey[x].source > SHELL_PARSER && x !in live
        ensures exists i :: 0 <= i < |more| && more[i].key == x
      {
        if x == k {
          assert more[|out|].key == x;
        } else {
          var i :| 0 <= i < |out| && out[i].key == x;
          assert more[i].key == x;
        }
      }
    }
  }

  /** The loop over the merged candidates; Go visits a map in any order. */
  method EventsOf(inp: Input, n: Normalizer, byKey: map<string, Candidate>, live: set<string>)
    returns (out: seq<SystemEvent>)
    requires byKey == Merged(Candidates(n, Reports(inp)))
    requires forall k :: k in live <==> LiveKey(inp, k)
    ensures Supplements(inp, n, out)
  {
    MergedWinners(Candidates(n, Reports(inp)));
    out := [];
    var left := byKey.Keys;
    while left != {}
      invariant left <= byKey.Keys && Gathered(inp, byKey, live, byKey.Keys - left, out)
      decreases left
    {
      var key :| key in left;
      GatheredMore(inp, byKey, live, byKey.Keys - left, out, key);
      assert byKey.Keys - (left - {key}) == (byKey.Keys - left) + {key};
      left := left - {key};
      var c := byKey[key];
      if c.source > SHELL_PARSER && key !in live {
        out := out + [EventFor(inp, c)];
      }
    }
    assert byKey.Keys - left == byKey.Keys;
    GatheredIsSupplements(inp, n, byKey, live, out);
  }

  lemma {:induction false} GatheredIsSupplements(inp: Input, n: Normalizer, byKey: map<string, Candidate>,
                                                 live: set<string>,
                                                 out: seq<SystemEvent>)
    requires byKey == Merged(Candidates(n, Reports(inp)))
    requires forall k :: k in live <==> LiveKey(inp, k)
    requires Gathered(inp, byKey, live, byKey.Keys, out)
    ensures Supplements(inp, n, out)
  {
  }

  datatype DedupKey = DedupKey(sessionID: string, key: string, operation: string)

  function DedupKeyOf(e: SystemEvent): DedupKey {
    DedupKey(e.sessionID, e.key, e.operation)
  }

  /** `latest` holds the latest event of each group. */
  ghost predicate LatestOf(events: seq<SystemEvent>, latest: map<DedupKey, SystemEvent>) {
    && (forall k <- latest :: latest[k] in events && DedupKeyOf(latest[k]) == k)
    && (forall e <- events :: DedupKeyOf(e) in latest && e.occurredAt <= latest[DedupKeyOf(e)].occurredAt)
  }

  /** One event of each group of session, key and operation, and a latest one. */
  ghost predicate Deduped(events: seq<SystemEvent>, out: seq<SystemEvent>) {
    && (forall i :: 0 <= i < |out| ==> out[i] in events)
    && (forall i, j :: 0 <= i < j < |out| ==> DedupKeyOf(out[i]) != DedupKeyOf(out[j]))
    && (forall e <- events :: exists i :: 0 <= i < |out| && DedupKeyOf(out[i]) == DedupKeyOf(e)
                                          && e.occurredAt <= out[i].occurredAt)
  }

  /** Two events are of one group exactly when session, key and operation are the same. */
  lemma {:induction false} GroupsExactly(a: SystemEvent, b: SystemEvent)
    ensures DedupKeyOf(a) == DedupKeyOf(b) <==>
            a.sessionID == b.sessionID && a.key == b.key && a.operation == b.operation
  {
  }

  /** `out` lists the entries of `latest` under the keys in `done`. */
  ghost predicate Listed(latest: map<DedupKey, SystemEvent>, done: set<DedupKey>, out: seq<SystemEvent>) {
    && (forall i :: 0 <= i < |out| ==>
          DedupKeyOf(out[i]) in done && DedupKeyOf(out[i]) in latest && out[i] == latest[DedupKeyOf(out[i])])
    && (forall i, j :: 0 <= i < j < |out| ==> DedupKeyOf(out[i]) != DedupKeyOf(out[j]))
    && (forall k <- done :: exists i :: 0 <= i < |out| && DedupKeyOf(out[i]) == k)
  }

  lemma {:induction false} ListedMore(latest: map<DedupKey, SystemEvent>, done: set<DedupKey>, out: seq<SystemEvent>,
                                      k: DedupKey)
    requires Listed(latest, done, out) && k in latest && k !in done && DedupKeyOf(latest[k]) == k
    ensures Listed(latest, done + {k}, out + [latest[k]])
  {
    var more := out + [latest[k]];
    forall x <- done + {k}
      ensures exists i :: 0 <= i < |more| && DedupKeyOf(more[i]) == x
    {
      if x == k {
        assert DedupKeyOf(more[|out|]) == x;
      } else {
        var i :| 0 <= i < |out| && DedupKeyOf(out[i]) == x;
        assert more[i] == out[i];
      }
    }
  }

  lemma {:induction false} ListedIsDeduped(events: seq<SystemEvent>, latest: map<DedupKey, SystemEvent>,
                                           out: seq<SystemEvent>)
    requires LatestOf(events, latest) && Listed(latest, latest.Keys, out)
    ensures Deduped(events, out)
  {
    forall e <- events
      ensures exists i :: 0 <= i < |out| && DedupKeyOf(out[i]) == DedupKeyOf(e) && e.occurredAt <= out[i].occurredAt
    {
      assert DedupKeyOf(e) in latest.Keys;
      var i :| 0 <= i < |out| && DedupKeyOf(out[i]) == DedupKeyOf(e);
    }
  }

  lemma {:induction false} LatestMore(events: seq<SystemEvent>, latest: map<DedupKey, SystemEvent>, e: SystemEvent)
    requires LatestOf(events, latest)
    ensures var k := DedupKeyOf(e);
            var later := k !in latest || e.occurredAt > latest[k].occurredAt;
            LatestOf(events + [e], if later then latest[k := e] else latest)
  {
  }

  method DedupEvents(events: seq<SystemEvent>) returns (out: seq<SystemEvent>)
    ensures Deduped(events, out)
  {
    var latest := map[];
    for i := 0 to |events|
      invariant LatestOf(events[..i], latest)
    {
      var e := events[i];
      var k := DedupKeyOf(e);
      OneMore(events, i);
      LatestMore(events[..i], latest, e);
      if k !in latest || e.occurredAt > latest[k].occurredAt {
        latest := latest[k := e];
      }
    }
    Whole(events);
    out := [];
    var left := latest.Keys;
    while left != {}
      invariant left <= latest.Keys && Listed(latest, latest.Keys - left, out)
      decreases left
    {
      var k :| k in left;
      ListedMore(latest, latest.Keys - left, out, k);
      assert latest.Keys - (left - {k}) == (latest.Keys - left) + {k};
      left := left - {k};
      out := out + [latest[k]];
    }
    assert latest.Keys - left == latest.Keys;
    ListedIsDeduped(events, latest, out);
  }

  /** The merge has one event a key already, so dropping duplicates only reorders it. */
  lemma {:induction false} DedupedSupplements(inp: Input, n: Normalizer, events: seq<SystemEvent>,
                                              out: seq<SystemEvent>)
    requires Supplements(inp, n, events) && Deduped(events, out)
    ensures Supplements(inp, n, out)
  {
    forall key | Due(inp, n, key)
      ensures exists i :: 0 <= i < |out| && out[i].key == key
    {
      var j :| 0 <= j < |events| && events[j].key == key;
      assert events[j] in events;
      var i :| 0 <= i < |out| && DedupKeyOf(out[i]) == DedupKeyOf(events[j]);
      assert out[i].key == key;
    }
  }
}
