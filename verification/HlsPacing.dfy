/** Encoder pacing of apps/server/src/hls-pacing.js, run as a controller over its ticks. */
module HlsPacing {
  import opened Options

  const MAX_LEAD := 60
  const RESUME_LEAD := 30

  datatype Decision = Suspend | Resume | Keep

  /** `produced` is -1 before the first segment; `requested` is the segment asked for most recently. */
  datatype State = State(produced: int, requested: Option<int>, suspended: bool)

  function Requested(s: State): int { if s.requested.Some? then s.requested.value else -1 }

  function Lead(s: State): int { s.produced - Requested(s) }

  function Decide(s: State): Decision {
    if !s.suspended && Lead(s) >= MAX_LEAD then Suspend
    else if s.suspended && Lead(s) <= RESUME_LEAD then Resume
    else Keep
  }

  /**
   What happens between two ticks and at the second: segments written, the latest request, and whether the
   stop or continue signal reached the encoder.
   */
  datatype Tick = Tick(written: nat, requested: Option<int>, delivered: bool)

  function Before(s: State, t: Tick): State { State(s.produced + t.written, t.requested, s.suspended) }

  /** One tick of the server's pacing (apps/server/src/media-service.js). */
  function After(s: State, t: Tick): State {
    var b := Before(s, t);
    match Decide(b)
    case Suspend => if t.delivered then b.(suspended := true) else b
    case Resume => if t.delivered then b.(suspended := false) else b
    case Keep => b
  }

  function Asked(t: Tick): int { if t.requested.Some? then t.requested.value else -1 }

  /**
   The encoder writes at most `k` segments between ticks and none while stopped.  Requests may go anywhere; the server
   only never forgets that there was one.
   */
  predicate Feasible(s: State, t: Tick, k: nat) {
    && t.written <= k && (s.suspended ==> t.written == 0)
    && (t.requested.Some? ==> t.requested.value >= 0) && (s.requested.Some? ==> t.requested.Some?)
  }

  ghost predicate Run(s: State, ticks: seq<Tick>, k: nat)
    decreases |ticks|
  {
    ticks == [] || (Feasible(s, ticks[0], k) && Run(After(s, ticks[0]), ticks[1..], k))
  }

  function End(s: State, ticks: seq<Tick>): State
    decreases |ticks|
  {
    if ticks == [] then s else End(After(s, ticks[0]), ticks[1..])
  }

  const IDLE := State(-1, None, false)

  /** The stop signal of this tick, if there is one, reaches the encoder. */
  predicate Stops(s: State, t: Tick) { Decide(Before(s, t)).Suspend? ==> t.delivered }

  ghost predicate AllStop(s: State, ticks: seq<Tick>)
    decreases |ticks|
  {
    ticks == [] || (Stops(s, ticks[0]) && AllStop(After(s, ticks[0]), ticks[1..]))
  }

  function Max(a: int, b: int): int { if a >= b then a else b }

  /** The furthest segment requested, starting from `high`. */
  function Furthest(high: int, ticks: seq<Tick>): int
    decreases |ticks|
  {
    if ticks == [] then high else Furthest(Max(high, Asked(ticks[0])), ticks[1..])
  }

  /** What the encoder may have written because stop signals were lost: `k` segments for each. */
  function Slack(s: State, ticks: seq<Tick>, k: nat): nat
    decreases |ticks|
  {
    if ticks == [] then 0 else (if Stops(s, ticks[0]) then 0 else k) + Slack(After(s, ticks[0]), ticks[1..], k)
  }

  /** Production never runs far past the furthest request, whatever was asked since. */
  predicate Paced(s: State, high: int, k: nat, slack: nat) {
    s.produced - high <= 59 + k + slack && (!s.suspended ==> s.produced - high < 60 + slack) && Requested(s) <= high
  }

  lemma TickPaces(s: State, high: int, t: Tick, k: nat, slack: nat)
    requires Paced(s, high, k, slack) && Feasible(s, t, k)
    ensures Paced(After(s, t), Max(high, Asked(t)), k, slack + if Stops(s, t) then 0 else k)
    ensures Before(s, t).produced - Max(high, Asked(t)) <= 59 + k + slack
  {
  }

  /**
   In every run, for any requests and any lost signals: the lead exceeds 59 + k by at most how far the client has gone
   back from its furthest request and k for each lost stop signal, between ticks as well as at them.
   */
  lemma {:induction false} LeadIsBounded(s: State, high: int, ticks: seq<Tick>, next: Tick, k: nat, slack: nat)
    requires Paced(s, high, k, slack) && Run(s, ticks, k) && Feasible(End(s, ticks), next, k)
    ensures
      var e, b, h := End(s, ticks), Before(End(s, ticks), next), Furthest(high, ticks);
      var bound := 59 + k + slack + Slack(s, ticks, k);
      && Lead(e) <= bound + (h - Requested(e))
      && Lead(b) <= bound + (Max(h, Asked(next)) - Requested(b))
    decreases |ticks|
  {
    if ticks != [] {
      TickPaces(s, high, ticks[0], k, slack);
      var more := slack + if Stops(s, ticks[0]) then 0 else k;
      LeadIsBounded(After(s, ticks[0]), Max(high, Asked(ticks[0])), ticks[1..], next, k, more);
    }
  }

  // ---- when the bound 59 + k itself holds ------------------------------------------------------

  /** The lead stays at or below 59 + k at every tick. */
  ghost predicate Bounded(s: State, ticks: seq<Tick>, k: nat)
    decreases |ticks|
  {
    ticks == [] || (Lead(Before(s, ticks[0])) <= 59 + k && Bounded(After(s, ticks[0]), ticks[1..], k))
  }

  /** A request behind the furthest one goes back no further than what was written allows; others may be anything. */
  ghost predicate SmallSteps(s: State, high: int, ticks: seq<Tick>, k: nat)
    decreases |ticks|
  {
    ticks == []
    || ((Asked(ticks[0]) < high ==> Asked(ticks[0]) >= s.produced + ticks[0].written - 59 - k)
        && SmallSteps(After(s, ticks[0]), Max(high, Asked(ticks[0])), ticks[1..], k))
  }

  /** The bound holds over a run if and only if no request goes back too far; requests at the front need no check. */
  lemma {:induction false} BoundedExactly(s: State, high: int, ticks: seq<Tick>, k: nat)
    requires Paced(s, high, k, 0) && Run(s, ticks, k) && AllStop(s, ticks)
    ensures Bounded(s, ticks, k) <==> SmallSteps(s, high, ticks, k)
    decreases |ticks|
  {
    if ticks != [] {
      TickPaces(s, high, ticks[0], k, 0);
      BoundedExactly(After(s, ticks[0]), Max(high, Asked(ticks[0])), ticks[1..], k);
    }
  }

  lemma BoundedExactlyFromTheStart(ticks: seq<Tick>, k: nat)
    requires Run(IDLE, ticks, k) && AllStop(IDLE, ticks)
    ensures Bounded(IDLE, ticks, k) <==> SmallSteps(IDLE, -1, ticks, k)
  {
    BoundedExactly(IDLE, -1, ticks, k);
  }

  predicate Forward(high: int, ticks: seq<Tick>)
    decreases |ticks|
  {
    ticks == [] || (high <= Asked(ticks[0]) && Forward(Asked(ticks[0]), ticks[1..]))
  }

  lemma {:induction false} ForwardIsSmall(s: State, high: int, ticks: seq<Tick>, k: nat)
    requires Forward(high, ticks)
    ensures SmallSteps(s, high, ticks, k)
    decreases |ticks|
  {
    if ticks != [] { ForwardIsSmall(After(s, ticks[0]), Asked(ticks[0]), ticks[1..], k); }
  }

  /** In particular it holds when requests never go back. */
  lemma LeadIsBoundedFromTheStart(ticks: seq<Tick>, k: nat)
    requires Run(IDLE, ticks, k) && AllStop(IDLE, ticks) && Forward(-1, ticks)
    ensures Bounded(IDLE, ticks, k)
  {
    ForwardIsSmall(IDLE, -1, ticks, k);
    BoundedExactlyFromTheStart(ticks, k);
  }

  /** `n` ticks in which the client is at segment `at` and the encoder writes one segment each. */
  function Watching(at: nat, n: nat): seq<Tick> { if n == 0 then [] else [Tick(1, Some(at), true)] + Watching(at, n - 1) }

  lemma {:induction false} WatchingProduces(s: State, at: nat, n: nat, last: Tick)
    requires !s.suspended && s.produced + n <= at && s.produced >= -1
    requires last.written == 0 && last.requested.Some? && last.requested.value >= 0 && last.delivered
    ensures
      var ticks, before := Watching(at, n) + [last], State(s.produced + n, if n == 0 then s.requested else Some(at), false);
      && Run(s, ticks, 1) && AllStop(s, ticks) && End(s, ticks) == After(before, last)
      && (Bounded(s, ticks, 1) ==> Lead(Before(before, last)) <= 60)
    decreases n
  {
    var ticks := Watching(at, n) + [last];
    if n == 0 {
      assert ticks == [last] && [last][1..] == [];
      assert Run(After(s, last), [], 1) && AllStop(After(s, last), []);
    } else {
      var first := Tick(1, Some(at), true);
      assert ticks[0] == first && ticks[1..] == Watching(at, n - 1) + [last];
      assert After(s, first) == State(s.produced + 1, Some(at), false);
      WatchingProduces(After(s, first), at, n - 1, last);
    }
  }

  /** From the start: a client that reads ahead and then seeks to the beginning raises the lead past any bound. */
  lemma SeekingBackBreaksTheBound(n: nat)
    requires n > 61
    ensures
      var ticks := Watching(n, n) + [Tick(0, Some(0), true)];
      Run(IDLE, ticks, 1) && AllStop(IDLE, ticks) && Lead(End(IDLE, ticks)) == n - 1 && !Bounded(IDLE, ticks, 1)
  {
    WatchingProduces(IDLE, n, n, Tick(0, Some(0), true));
  }

  // ---- suspension and hysteresis, for any requests ------------------------------------------------

  /**
   One tick, exactly: a running encoder is stopped by a delivered signal at a lead of 60 or more, a stopped one continued
   by a delivered signal at 30 or less, and a lost signal changes nothing.
   */
  lemma SwitchesExactly(s: State, t: Tick)
    ensures After(s, t).suspended <==>
      if s.suspended then !(t.delivered && Lead(Before(s, t)) <= 30) else t.delivered && Lead(Before(s, t)) >= 60
    ensures After(s, t).produced == s.produced + t.written && After(s, t).requested == t.requested
  {
  }

  /** A tick that ends with a stopped encoder leaves more than 30 unrequested segments, unless a continue signal was lost. */
  lemma SuspendedIsFarAhead(s: State, t: Tick)
    requires After(s, t).suspended
    ensures Lead(After(s, t)) > 30 <==> !Decide(Before(s, t)).Resume?
  {
  }

  /** The encoder is stopped at every tick of the run. */
  ghost predicate StaysSuspended(s: State, ticks: seq<Tick>)
    decreases |ticks|
  {
    s.suspended && (ticks == [] || StaysSuspended(After(s, ticks[0]), ticks[1..]))
  }

  lemma {:induction false} NothingWrittenWhileSuspended(s: State, ticks: seq<Tick>, k: nat)
    requires Run(s, ticks, k) && StaysSuspended(s, ticks)
    ensures End(s, ticks).produced == s.produced && End(s, ticks).suspended
    decreases |ticks|
  {
    if ticks != [] { NothingWrittenWhileSuspended(After(s, ticks[0]), ticks[1..], k); }
  }

  /**
   Hysteresis: from the tick that stops the encoder, through any requests, to the next tick that continues it, the
   client's position has moved on by at least 30 segments.
   */
  lemma ThirtyRequestsBetweenSwitches(s: State, stop: Tick, ticks: seq<Tick>, resume: Tick, k: nat)
    requires !s.suspended && Feasible(s, stop, k) && After(s, stop).suspended
    requires Run(After(s, stop), ticks, k) && StaysSuspended(After(s, stop), ticks)
    requires var e := End(After(s, stop), ticks); Feasible(e, resume, k) && !After(e, resume).suspended
    ensures var e := End(After(s, stop), ticks);
      Requested(After(e, resume)) - Requested(After(s, stop)) >= 30
  {
    NothingWrittenWhileSuspended(After(s, stop), ticks, k);
  }

  /** The two thresholds never fight: deciding twice without new segments or requests switches nothing back. */
  lemma SwitchIsStable(s: State, t: Tick)
    requires t.delivered
    ensures Decide(After(s, t)).Keep?
  {
  }
}
