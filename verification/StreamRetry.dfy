/** One retry budget for opening a stream and for its leading error chunks
    (llmgateway/stream_retry.go, and the loop of llmgateway/openai/handler.go). */
module StreamRetry {
  import opened Wrappers
  import opened Decimal

  const SECOND := 1_000_000_000

  datatype RetrySettings = RetrySettings(maxRetries: int, initialDelaySeconds: int, maxDelaySeconds: int)

  function Normalized(cfg: RetrySettings): RetrySettings {
    var unset := cfg.maxRetries == 0 && cfg.initialDelaySeconds == 0 && cfg.maxDelaySeconds == 0;
    var retries := if cfg.maxRetries == 0 then 2 else cfg.maxRetries;
    if unset then RetrySettings(retries, 1, 8)
    else if cfg.maxDelaySeconds == 0 then RetrySettings(retries, cfg.initialDelaySeconds, 8)
    else cfg.(maxRetries := retries)
  }

  /** The settings a budget works with, one by one: zero retries mean two, a zero maximum means eight seconds,
      and a zero first delay means one second only if nothing at all is set. */
  lemma {:induction false} DefaultsExactly(cfg: RetrySettings)
    ensures Normalized(cfg).maxRetries == if cfg.maxRetries == 0 then 2 else cfg.maxRetries
    ensures Normalized(cfg).maxDelaySeconds == if cfg.maxDelaySeconds == 0 then 8 else cfg.maxDelaySeconds
    ensures Normalized(cfg).initialDelaySeconds ==
            if cfg.maxRetries == 0 && cfg.initialDelaySeconds == 0 && cfg.maxDelaySeconds == 0 then 1
            else cfg.initialDelaySeconds
  {
  }

  /** With nothing set the delays are one, two, four and then eight seconds, until the product overflows. */
  lemma {:induction false} DefaultDelays(n: nat)
    requires n <= 33
    ensures Backoff(Normalized(RetrySettings(0, 0, 0)), n) ==
            SECOND * (if n == 0 then 1 else if n == 1 then 2 else if n == 2 then 4 else 8)
  {
    var cfg := RetrySettings(2, 1, 8);
    assert Pow2(0) == 1 && Pow2(1) == 2 && Pow2(2) == 4 && Pow2(3) == 8;
    Pow2Of33();
    TimesPow2Grows(SECOND, n, 33);
    BackoffExactly(cfg, n);
    if n > 2 {
      TimesPow2Grows(SECOND, 3, n);
    }
  }

  lemma {:induction false} Pow2Of33()
    ensures Pow2(33) == 8_589_934_592
  {
    assert Pow2(4) == 16 && Pow2(8) == 256 && Pow2(12) == 4096 && Pow2(16) == 65536 && Pow2(20) == 1048576;
    assert Pow2(24) == 16777216 && Pow2(28) == 268435456 && Pow2(32) == 4294967296;
  }

  // ---------------------------------------------------------------- delays

  /** `d` doubled `n` times in a 64-bit int. */
  function Doubled(d: int, n: nat): int {
    if n == 0 then d else Wrap(2 * Doubled(d, n - 1))
  }

  function Pow2(n: nat): nat {
    if n == 0 then 1 else 2 * Pow2(n - 1)
  }

  function DelayCap(cfg: RetrySettings): int {
    var cap := Wrap(cfg.maxDelaySeconds * SECOND);
    if cap <= 0 then 8 * SECOND else cap
  }

  function Backoff(cfg: RetrySettings, attempt: nat): int {
    if cfg.initialDelaySeconds <= 0 then 0
    else
      var d := Doubled(Wrap(cfg.initialDelaySeconds * SECOND), attempt);
      if d > DelayCap(cfg) then DelayCap(cfg) else d
  }

  method RetryBackoff(cfg: RetrySettings, attempt: nat) returns (d: int)
    ensures d == Backoff(cfg, attempt)
  {
    if cfg.initialDelaySeconds <= 0 {
      return 0;
    }
    d := Wrap(cfg.initialDelaySeconds * SECOND);
    for i := 0 to attempt
      invariant d == Doubled(Wrap(cfg.initialDelaySeconds * SECOND), i)
    {
      d := Wrap(2 * d);
    }
    var max := Wrap(cfg.maxDelaySeconds * SECOND);
    if max <= 0 {
      max := 8 * SECOND;
    }
    if d > max {
      d := max;
    }
  }

  /** The delay of an attempt if ints had no bound: the first one doubled, and capped. */
  function TrueCap(cfg: RetrySettings): int {
    if cfg.maxDelaySeconds <= 0 then 8 * SECOND else cfg.maxDelaySeconds * SECOND
  }

  function Uncapped(cfg: RetrySettings, attempt: nat): int {
    cfg.initialDelaySeconds * SECOND * Pow2(attempt)
  }

  function Capped(cfg: RetrySettings, attempt: nat): int {
    if Uncapped(cfg, attempt) > TrueCap(cfg) then TrueCap(cfg) else Uncapped(cfg, attempt)
  }

  lemma {:induction false} WrapShifted(n: int, m: int)
    ensures Wrap(n - m * 0x1_0000_0000_0000_0000) == Wrap(n)
  {
  }

  lemma {:induction false} WrapDoubled(n: int)
    ensures Wrap(2 * Wrap(n)) == Wrap(2 * n)
  {
    var q := (n - MIN_INT) / 0x1_0000_0000_0000_0000;
    assert Wrap(n) == n - q * 0x1_0000_0000_0000_0000;
    WrapShifted(2 * n, 2 * q);
  }

  lemma {:induction false} TimesPow2(d: int, n: nat)
    requires n > 0
    ensures d * Pow2(n) == 2 * (d * Pow2(n - 1))
  {
  }

  /** Doubling with wrap-around is doubling, wrapped around once at the end. */
  lemma {:induction false} DoubledIsWrapped(d: int, n: nat)
    ensures Doubled(Wrap(d), n) == Wrap(d * Pow2(n))
  {
    if n > 0 {
      DoubledIsWrapped(d, n - 1);
      WrapDoubled(d * Pow2(n - 1));
      TimesPow2(d, n);
    }
  }

  lemma {:induction false} TimesPow2Positive(d: int, n: nat)
    requires 0 < d
    ensures 0 < d * Pow2(n)
  {
    if n > 0 {
      TimesPow2Positive(d, n - 1);
      TimesPow2(d, n);
    }
  }

  /** The cap is the one configured exactly when it fits an int, if it was not configured below zero. */
  lemma {:induction false} CapFitsExactly(cfg: RetrySettings)
    requires 0 <= cfg.maxDelaySeconds
    ensures DelayCap(cfg) == TrueCap(cfg) <==> cfg.maxDelaySeconds * SECOND <= MAX_INT
  {
  }

  /** Exactly when a delay is the capped doubling, for all settings and every attempt. Below the true cap: if
      and only if it is not past the cap that wrapped around. Past it: if and only if the cap fits and
      the product wraps around to a value that is not below it, or wraps around to the true cap itself. */
  lemma {:induction false} BackoffExactly(cfg: RetrySettings, attempt: nat)
    requires 0 < cfg.initialDelaySeconds
    ensures Backoff(cfg, attempt) == Capped(cfg, attempt) <==>
            if Uncapped(cfg, attempt) <= TrueCap(cfg) then Uncapped(cfg, attempt) <= DelayCap(cfg)
            else
              || (DelayCap(cfg) == TrueCap(cfg) <= Wrap(Uncapped(cfg, attempt)))
              || (Wrap(Uncapped(cfg, attempt)) == TrueCap(cfg) < DelayCap(cfg))
  {
    DoubledIsWrapped(cfg.initialDelaySeconds * SECOND, attempt);
    TimesPow2Positive(cfg.initialDelaySeconds * SECOND, attempt);
  }

  /** The first product that does not fit is negative, so nothing is waited. */
  lemma {:induction false} BackoffWraps(cfg: RetrySettings, attempt: nat)
    requires 0 < cfg.initialDelaySeconds && MAX_INT < Uncapped(cfg, attempt) <= 2 * MAX_INT + 1
    ensures Backoff(cfg, attempt) < 0
  {
    DoubledIsWrapped(cfg.initialDelaySeconds * SECOND, attempt);
  }

  lemma {:induction false} TimesPow2Grows(d: int, k: nat, n: nat)
    requires 0 < d && k <= n
    ensures d * Pow2(k) <= d * Pow2(n)
  {
    if k < n {
      TimesPow2Grows(d, k, n - 1);
      TimesPow2Positive(d, n - 1);
      TimesPow2(d, n);
    }
  }

  /** The first doubling past a bound is at most twice the bound, unless it is the number itself. */
  lemma {:induction false} FirstPast(d: int, bound: int, n: nat) returns (k: nat)
    requires 0 < d && bound < d * Pow2(n)
    ensures k <= n && bound < d * Pow2(k) && (k == 0 || d * Pow2(k) <= 2 * bound)
  {
    if n == 0 {
      k := 0;
    } else {
      TimesPow2(d, n);
      if d * Pow2(n - 1) <= bound {
        k := n;
      } else {
        k := FirstPast(d, bound, n - 1);
      }
    }
  }

  /** The bound up to which all delays are right: an int if the cap fits, and otherwise the lower cap. */
  function RightUpTo(cfg: RetrySettings): int {
    if DelayCap(cfg) == TrueCap(cfg) then MAX_INT
    else if DelayCap(cfg) < TrueCap(cfg) then DelayCap(cfg)
    else TrueCap(cfg)
  }

  /** When the first delay fits, the delays up to an attempt are the capped doublings if and only if the
      last product fits an int, or is not past either cap when the cap wrapped around. */
  lemma {:induction false} BackoffFitsUpTo(cfg: RetrySettings, n: nat)
    requires 0 < cfg.initialDelaySeconds && cfg.initialDelaySeconds * SECOND <= MAX_INT
    ensures (forall k :: 0 <= k <= n ==> Backoff(cfg, k) == Capped(cfg, k)) <==> Uncapped(cfg, n) <= RightUpTo(cfg)
  {
    var first := cfg.initialDelaySeconds * SECOND;
    if Uncapped(cfg, n) <= RightUpTo(cfg) {
      forall k | 0 <= k <= n
        ensures Backoff(cfg, k) == Capped(cfg, k)
      {
        TimesPow2Grows(first, k, n);
        TimesPow2Positive(first, k);
        BackoffExactly(cfg, k);
      }
    } else {
      var k := FirstWrong(cfg, n);
      assert Backoff(cfg, k) != Capped(cfg, k);
    }
  }

  lemma {:induction false} FirstWrong(cfg: RetrySettings, n: nat) returns (k: nat)
    requires 0 < cfg.initialDelaySeconds && cfg.initialDelaySeconds * SECOND <= MAX_INT
    requires RightUpTo(cfg) < Uncapped(cfg, n)
    ensures k <= n && Backoff(cfg, k) != Capped(cfg, k)
  {
    if DelayCap(cfg) < TrueCap(cfg) {
      k := n;
    } else {
      k := FirstPast(cfg.initialDelaySeconds * SECOND, RightUpTo(cfg), n);
    }
    BackoffExactly(cfg, k);
  }

  /** When the first delay does not fit, that can pass unnoticed: this one wraps around to some eight seconds
      and is cut down to the cap, as the true one would be. */
  lemma {:induction false} OverflowHiddenByTheCap(retries: int)
    ensures var cfg := RetrySettings(retries, 18_446_744_082, 8);
            Uncapped(cfg, 0) > MAX_INT && Backoff(cfg, 0) == Capped(cfg, 0) == 8 * SECOND
  {
    var cfg := RetrySettings(retries, 18_446_744_082, 8);
    assert Pow2(0) == 1;
    assert Wrap(18_446_744_082 * SECOND) == 8_290_448_384;
  }

  /** The cap itself can wrap around: with this one, some 585 years, the first delay is not one
      second but less. */
  lemma {:induction false} CapWraps(retries: int)
    ensures var cfg := RetrySettings(retries, 1, 18_446_744_074);
            Capped(cfg, 0) == SECOND && Backoff(cfg, 0) == 290_448_384
  {
    var cfg := RetrySettings(retries, 1, 18_446_744_074);
    assert Pow2(0) == 1;
    assert Wrap(18_446_744_074 * SECOND) == 290_448_384;
    assert Wrap(SECOND) == SECOND;
  }

  // ---------------------------------------------------------------- the upstream

  /** A chunk of an upstream stream: nil, an error, a response event, or neither. */
  datatype Chunk<T> = NilChunk | ErrorChunk(retryable: bool) | Data(event: T) | EmptyChunk

  datatype Opened<T> = OpenError(transient: bool) | Stream(chunks: seq<Chunk<T>>)

  /** What the upstream and the request context do: the outcome of the n-th open, whether the context
      is done before it, and whether it ends during the n-th delay. */
  datatype World<T> = World(open: nat -> Opened<T>, doneBefore: nat -> bool, doneDuring: nat -> bool)

  /** How a request was served: by which stream, and where it broke off. */
  datatype Served = OpenFailed(opens: nat) | Ended(stream: nat) | Errored(stream: nat, at: nat)

  /** The index of the first error chunk from `i` on, or the length. */
  function FirstError<T>(chunks: seq<Chunk<T>>, i: nat): (e: nat)
    requires i <= |chunks|
    ensures i <= e <= |chunks|
    ensures forall k :: i <= k < e ==> !chunks[k].ErrorChunk?
    ensures e < |chunks| ==> chunks[e].ErrorChunk?
    decreases |chunks| - i
  {
    if i == |chunks| || chunks[i].ErrorChunk? then i else FirstError(chunks, i + 1)
  }

  /** The response events before index `n`, in order. */
  function DataBefore<T>(chunks: seq<Chunk<T>>, n: nat): seq<T>
    requires n <= |chunks|
  {
    if n == 0 then []
    else DataBefore(chunks, n - 1) + (if chunks[n - 1].Data? then [chunks[n - 1].event] else [])
  }

  /** A retry with `fails` retries spent is allowed by the budget and not cut short while waiting. */
  predicate MayRetry<T>(world: World<T>, cfg: RetrySettings, fails: nat) {
    fails < cfg.maxRetries && !(Backoff(cfg, fails) > 0 && world.doneDuring(fails))
  }

  /** What becomes of open number `n`, made after `n` retries: nothing yet when it is retried, else
      the way the request was served. */
  function Outcome<T>(world: World<T>, cfg: RetrySettings, n: nat): Option<Served> {
    if world.doneBefore(n) then Some(OpenFailed(n))
    else
      match world.open(n)
      case OpenError(transient) =>
        if transient && MayRetry(world, cfg, n) then None else Some(OpenFailed(n + 1))
      case Stream(chunks) =>
        var e := FirstError(chunks, 0);
        if e == |chunks| then Some(Ended(n))
        else if chunks[e].retryable && DataBefore(chunks, e) == [] && MayRetry(world, cfg, n) then None
        else Some(Errored(n, e))
  }

  ghost predicate AllRetried<T>(world: World<T>, cfg: RetrySettings, lo: nat, hi: nat) {
    forall n :: lo <= n < hi ==> Outcome(world, cfg, n) == None
  }

  /** The request is served by the first open that is not retried. */
  ghost predicate ServedAs<T>(world: World<T>, cfg: RetrySettings, s: Served) {
    exists n: nat :: AllRetried(world, cfg, 0, n) && Outcome(world, cfg, n) == Some(s)
  }

  /** Open number `n` is retried: the context is live, a retry is left, the open failed transiently or its stream
      begins with a retryable error before any event, and a delay, if there is one, is not cut short. */
  predicate GivenAnother<T>(world: World<T>, cfg: RetrySettings, n: nat) {
    && !world.doneBefore(n) && n < cfg.maxRetries && (Backoff(cfg, n) > 0 ==> !world.doneDuring(n))
    && match world.open(n)
       case OpenError(transient) => transient
       case Stream(chunks) => LeadingError(chunks)
  }

  predicate LeadingError<T>(chunks: seq<Chunk<T>>) {
    exists i :: 0 <= i < |chunks| && chunks[i] == ErrorChunk(true)
                && forall k :: 0 <= k < i ==> chunks[k].NilChunk? || chunks[k].EmptyChunk?
  }

  lemma {:induction false} DataBeforeError<T>(chunks: seq<Chunk<T>>, e: nat)
    requires e <= |chunks| && forall k :: 0 <= k < e ==> !chunks[k].ErrorChunk?
    ensures DataBefore(chunks, e) == [] <==> forall k :: 0 <= k < e ==> chunks[k].NilChunk? || chunks[k].EmptyChunk?
  {
    if e > 0 {
      DataBeforeError(chunks, e - 1);
    }
  }

  lemma {:induction false} RetriedExactly<T>(world: World<T>, cfg: RetrySettings, n: nat)
    ensures Outcome(world, cfg, n) == None <==> GivenAnother(world, cfg, n)
  {
    if world.open(n).Stream? {
      var chunks := world.open(n).chunks;
      var e := FirstError(chunks, 0);
      DataBeforeError(chunks, e);
      if LeadingError(chunks) {
        var i :| 0 <= i < |chunks| && chunks[i] == ErrorChunk(true)
                 && forall k :: 0 <= k < i ==> chunks[k].NilChunk? || chunks[k].EmptyChunk?;
        assert e == i;
      }
    }
  }

  /** What each way of being served means, from what the upstream and the context do. Every open before the last
      was retried; the last one was not made, or failed for good, or its stream ended, or broke off at its
      first error. */
  lemma {:induction false} ServedMeans<T>(world: World<T>, cfg: RetrySettings, s: Served)
    requires ServedAs(world, cfg, s)
    ensures forall n :: 0 <= n < Opens(s) - 1 ==> GivenAnother(world, cfg, n)
    ensures match s
            case OpenFailed(opens) =>
              if opens > 0 && !GivenAnother(world, cfg, opens - 1)
              then !world.doneBefore(opens - 1) && world.open(opens - 1).OpenError?
              else world.doneBefore(opens)
            case Ended(n) =>
              !world.doneBefore(n) && world.open(n).Stream? && forall c <- world.open(n).chunks :: !c.ErrorChunk?
            case Errored(n, at) =>
              && !world.doneBefore(n) && !GivenAnother(world, cfg, n) && world.open(n).Stream?
              && at < |world.open(n).chunks| && world.open(n).chunks[at].ErrorChunk?
              && forall k :: 0 <= k < at ==> !world.open(n).chunks[k].ErrorChunk?
  {
    var n: nat :| AllRetried(world, cfg, 0, n) && Outcome(world, cfg, n) == Some(s);
    RetriedExactly(world, cfg, n);
    forall k: nat | k < n
      ensures GivenAnother(world, cfg, k)
    {
      RetriedExactly(world, cfg, k);
    }
  }

  lemma {:induction false} ServedOneWay<T>(world: World<T>, cfg: RetrySettings, s: Served, t: Served)
    requires ServedAs(world, cfg, s) && ServedAs(world, cfg, t)
    ensures s == t
  {
    var n: nat :| AllRetried(world, cfg, 0, n) && Outcome(world, cfg, n) == Some(s);
    var m: nat :| AllRetried(world, cfg, 0, m) && Outcome(world, cfg, m) == Some(t);
    assert n == m;
  }

  /** Every open from number `lo` to before `hi` failed. */
  ghost predicate NoneOpened<T>(world: World<T>, lo: nat, hi: nat) {
    forall n :: lo <= n < hi ==> world.open(n).OpenError?
  }

  function Opens(s: Served): nat {
    match s
    case OpenFailed(opens) => opens
    case Ended(stream) => stream + 1
    case Errored(stream, _) => stream + 1
  }

  /** The stream that served a request is one that was opened, cut off at its first error chunk. */
  ghost predicate Backed<T>(world: World<T>, s: Served) {
    && (s.Ended? ==> world.open(s.stream).Stream?)
    && (s.Errored? ==>
          && world.open(s.stream).Stream?
          && s.at == FirstError(world.open(s.stream).chunks, 0) < |world.open(s.stream).chunks|)
  }

  /** The data a served request forwards: all of it from one stream. */
  ghost function Forwarded<T>(world: World<T>, s: Served): seq<T>
    requires Backed(world, s)
  {
    match s
    case OpenFailed(_) => []
    case Ended(n) => DataBefore(world.open(n).chunks, |world.open(n).chunks|)
    case Errored(n, at) => DataBefore(world.open(n).chunks, at)
  }

  /** One budget for all opens: however the request was served, there was at most one open more than
      the retries allowed, and a stream that was given up for another had delivered nothing. */
  lemma {:induction false} OneBudget<T>(world: World<T>, cfg: RetrySettings, s: Served)
    requires ServedAs(world, cfg, s)
    ensures Opens(s) <= 1 + (if cfg.maxRetries > 0 then cfg.maxRetries else 0)
    ensures Backed(world, s)
    ensures forall n :: 0 <= n < Opens(s) - 1 && world.open(n).Stream? ==>
              DataBefore(world.open(n).chunks, FirstError(world.open(n).chunks, 0)) == []
  {
    var n: nat :| AllRetried(world, cfg, 0, n) && Outcome(world, cfg, n) == Some(s);
    assert n > 0 ==> Outcome(world, cfg, n - 1) == None;
    forall k | 0 <= k < Opens(s) - 1 && world.open(k).Stream?
      ensures DataBefore(world.open(k).chunks, FirstError(world.open(k).chunks, 0)) == []
    {
      assert Outcome(world, cfg, k) == None;
    }
  }

  // ---------------------------------------------------------------- the budget

  class RetryBudget<T> {
    const cfg: RetrySettings
    const world: World<T>
    var fails: nat

    /** Opens made and delays asked for so far. */
    var opens: nat
    var delays: seq<int>

    constructor (settings: RetrySettings, world: World<T>)
      ensures cfg == Normalized(settings) && this.world == world && fails == 0 && opens == 0 && delays == []
    {
      cfg := Normalized(settings);
      this.world := world;
      fails, opens, delays := 0, 0, [];
    }

    /** Every retry spent has asked for its own delay. */
    predicate Accounted()
      reads this
    {
      && fails <= |delays| <= fails + 1
      && forall i :: 0 <= i < |delays| ==> delays[i] == Backoff(cfg, i)
    }

    method OpenWithBudget() returns (r: Option<seq<Chunk<T>>>)
      requires opens == fails == |delays| && Accounted()
      modifies this
      ensures Accounted()
      ensures match r
              case Some(chunks) =>
                && opens == fails + 1 && |delays| == fails && world.open(fails) == Stream(chunks)
                && !world.doneBefore(fails) && AllRetried(world, cfg, old(fails), fails)
              case None =>
                AllRetried(world, cfg, old(fails), fails) && Outcome(world, cfg, fails) == Some(OpenFailed(opens))
      ensures old(fails) <= fails <= opens
      ensures NoneOpened(world, old(fails), if r.Some? then fails else opens)
    {
      while true
        invariant opens == fails == |delays| && Accounted() && old(fails) <= fails
        invariant AllRetried(world, cfg, old(fails), fails)
        invariant NoneOpened(world, old(fails), fails)
        decreases cfg.maxRetries - fails
      {
        if world.doneBefore(fails) {
          return None;
        }
        var out := world.open(opens);
        opens := opens + 1;
        if out.Stream? {
          return Some(out.chunks);
        }
        if !out.transient || fails >= cfg.maxRetries {
          return None;
        }
        var delay := RetryBackoff(cfg, fails);
        delays := delays + [delay];
        if delay > 0 && world.doneDuring(fails) {
          return None;
        }
        fails := fails + 1;
      }
    }

    method RetryLeadingChunk(retryable: bool, dataWritten: bool) returns (again: bool)
      requires opens == fails + 1 && |delays| == fails && Accounted()
      modifies this
      ensures Accounted() && opens == old(opens)
      ensures again <==> retryable && !dataWritten && MayRetry(world, cfg, old(fails))
      ensures fails == old(fails) + (if again then 1 else 0)
      ensures again ==> |delays| == fails
    {
      if !(retryable && !dataWritten) {
        return false;
      }
      if fails >= cfg.maxRetries {
        return false;
      }
      var delay := RetryBackoff(cfg, fails);
      delays := delays + [delay];
      if delay > 0 && world.doneDuring(fails) {
        return false;
      }
      fails := fails + 1;
      return true;
    }
  }

  /** The inner loop of handleResponsesStream: one stream's events are written after `before`, up to
      its first error chunk or its end. */
  method ForwardChunks<T>(chunks: seq<Chunk<T>>, before: seq<T>) returns (written: seq<T>, e: nat)
    ensures e == FirstError(chunks, 0) <= |chunks|
    ensures written == before + DataBefore(chunks, e)
  {
    written, e := before, 0;
    while e < |chunks|
      invariant e <= |chunks| && FirstError(chunks, 0) == FirstError(chunks, e)
      invariant written == before + DataBefore(chunks, e)
    {
      match chunks[e] {
        case NilChunk =>
        case EmptyChunk =>
        case Data(event) =>
          written := written + [event];
        case ErrorChunk(_) =>
          return;
      }
      e := e + 1;
    }
  }

  /** Where the outer loop stands when it begins to read a stream. */
  ghost predicate Reading<T>(world: World<T>, cfg: RetrySettings, n: nat, chunks: seq<Chunk<T>>) {
    !world.doneBefore(n) && world.open(n) == Stream(chunks) && AllRetried(world, cfg, 0, n)
  }

  /** What reading a stream to its first error, or to its end, decides. */
  lemma {:induction false} StreamDecides<T>(world: World<T>, cfg: RetrySettings, n: nat, chunks: seq<Chunk<T>>)
    requires Reading(world, cfg, n, chunks)
    ensures var e := FirstError(chunks, 0);
            && Backed(world, Ended(n)) && (e < |chunks| ==> Backed(world, Errored(n, e)))
            && if e == |chunks| then ServedAs(world, cfg, Ended(n))
               else if chunks[e].retryable && DataBefore(chunks, e) == [] && MayRetry(world, cfg, n)
               then AllRetried(world, cfg, 0, n + 1)
               else ServedAs(world, cfg, Errored(n, e))
  {
  }

  /** What a reopen decides, when every open before number `lo` was retried. */
  lemma {:induction false} ReopenDecides<T>(world: World<T>, cfg: RetrySettings, lo: nat, n: nat)
    requires AllRetried(world, cfg, 0, lo) && AllRetried(world, cfg, lo, n)
    ensures AllRetried(world, cfg, 0, n)
    ensures Outcome(world, cfg, n).Some? ==> ServedAs(world, cfg, Outcome(world, cfg, n).value)
  {
  }

  /** The budget while a stream is read: one open more than retries. */
  ghost predicate AtStream<T>(budget: RetryBudget<T>, chunks: seq<Chunk<T>>)
    reads budget
  {
    && budget.Accounted() && budget.opens == budget.fails + 1 && |budget.delays| == budget.fails
    && Reading(budget.world, budget.cfg, budget.fails, chunks)
  }

  datatype Retried<T> = GaveUp | ReopenFailed | Reopened(chunks: seq<Chunk<T>>)

  /** The branch both handlers take on an error chunk: retry if the budget and the data written allow
      it, and then open another stream. */
  method RetryStream<T>(budget: RetryBudget<T>, chunks: seq<Chunk<T>>, e: nat, dataWritten: bool)
    returns (r: Retried<T>)
    requires AtStream(budget, chunks) && e == FirstError(chunks, 0) < |chunks|
    requires dataWritten <==> DataBefore(chunks, e) != []
    modifies budget
    ensures budget.Accounted() && (r.GaveUp? || DataBefore(chunks, e) == [])
    ensures match r
            case GaveUp =>
              && budget.fails == old(budget.fails) && budget.opens == old(budget.opens)
              && ServedAs(budget.world, budget.cfg, Errored(budget.fails, e))
            case ReopenFailed =>
              old(budget.fails) < budget.opens && ServedAs(budget.world, budget.cfg, OpenFailed(budget.opens))
            case Reopened(next) =>
              AtStream(budget, next) && old(budget.fails) < budget.fails && old(budget.fails) < budget.cfg.maxRetries
  {
    StreamDecides(budget.world, budget.cfg, budget.fails, chunks);
    var again := budget.RetryLeadingChunk(chunks[e].retryable, dataWritten);
    if !again {
      return GaveUp;
    }
    ghost var spent := budget.fails;
    var got := budget.OpenWithBudget();
    ReopenDecides(budget.world, budget.cfg, spent, budget.fails);
    if got == None {
      return ReopenFailed;
    }
    return Reopened(got.value);
  }

  /** handleResponsesStream: the events written, and how the request was served. */
  method HandleResponsesStream<T>(budget: RetryBudget<T>) returns (written: seq<T>, served: Served)
    requires budget.fails == 0 && budget.opens == 0 && budget.delays == []
    modifies budget
    ensures ServedAs(budget.world, budget.cfg, served)
    ensures budget.opens == Opens(served)
    ensures Backed(budget.world, served) && written == Forwarded(budget.world, served)
    ensures budget.Accounted()
  {
    written := [];
    var got := budget.OpenWithBudget();
    ReopenDecides(budget.world, budget.cfg, 0, budget.fails);
    if got == None {
      return [], OpenFailed(budget.opens);
    }
    var chunks := got.value;
    while true
      invariant AtStream(budget, chunks) && written == []
      decreases budget.cfg.maxRetries - budget.fails
    {
      var e;
      written, e := ForwardChunks(chunks, written);
      StreamDecides(budget.world, budget.cfg, budget.fails, chunks);
      if e == |chunks| {
        return written, Ended(budget.fails);
      }
      var retried := RetryStream(budget, chunks, e, |written| > 0);
      match retried {
        case GaveUp => return written, Errored(budget.fails, e);
        case ReopenFailed => return written, OpenFailed(budget.opens);
        case Reopened(next) => chunks := next;
      }
    }
  }
}
