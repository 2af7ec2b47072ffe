/** The playback lease of apps/mobile/mobilePlaybackLease.ts: timers, renewals, and one stop. */
module PlaybackLease {
  import opened Options

  /** Times are integers; `None` is a deadline that does not exist. */
  datatype Renewal = Renewal(expiresAt: int, absolute: Option<int>)

  /** One scheduled callback, live until it fires or is unscheduled. */
  datatype Timer = Timer(due: int, live: bool)

  datatype Stage = Renewing | Applying(result: Renewal) | Over

  /** One run of `tick` that called `renew`: when, the absolute deadline at that time, and how far it is. */
  datatype Tick = Tick(at: int, deadline: Option<int>, stage: Stage)

  /** The closure variables, every timer and renewal so far, and how often the callbacks were called. */
  datatype State = State(
    closed: bool,
    timers: seq<Timer>,
    ticks: seq<Tick>,
    expiresAt: int,
    absolute: Option<int>,
    stops: nat,
    failures: nat)

  const MARGIN := 60_000
  const SHORTEST := 1_000

  function Earlier(a: Option<int>, b: Option<int>): Option<int> {
    if a.None? then b else if b.None? then a else Some(if a.value <= b.value then a.value else b.value)
  }

  function Max(a: int, b: int): int { if a >= b then a else b }

  function Due(expiresAt: int, absolute: Option<int>, now: int): int {
    var deadline := if absolute.Some? && absolute.value < expiresAt then absolute.value else expiresAt;
    now + Max(SHORTEST, deadline - now - MARGIN)
  }

  function Armed(s: State, now: int): State {
    s.(timers := s.timers + if s.closed then [] else [Timer(Due(s.expiresAt, s.absolute, now), true)])
  }

  function Opened(expiresAt: int, absolute: Option<int>, now: int): State {
    Armed(State(false, [], [], expiresAt, absolute, 0, 0), now)
  }

  function Stopped(timers: seq<Timer>, k: nat): seq<Timer>
    requires k < |timers|
  {
    timers[k := timers[k].(live := false)]
  }

  /** The catch block of `tick`. */
  function Caught(s: State): State { s.(failures := if s.closed then s.failures else s.failures + 1) }

  function Ticked(s: State, k: nat, now: int): State
    requires k < |s.timers|
  {
    var fired := s.(timers := Stopped(s.timers, k));
    if s.absolute.Some? && now >= s.absolute.value then Caught(fired)
    else fired.(ticks := s.ticks + [Tick(now, s.absolute, Renewing)])
  }

  function At(s: State, i: nat, stage: Stage): State
    requires i < |s.ticks|
  {
    s.(ticks := s.ticks[i := s.ticks[i].(stage := stage)])
  }

  function RenewalSettled(s: State, i: nat, result: Option<Renewal>): State
    requires i < |s.ticks|
  {
    if result.None? then Caught(At(s, i, Over))
    else At(s, i, if s.closed then Over else Applying(result.value))
  }

  function ApplySettled(s: State, i: nat, ok: bool, now: int): State
    requires i < |s.ticks| && s.ticks[i].stage.Applying?
  {
    var result := s.ticks[i].stage.result;
    if !ok then Caught(At(s, i, Over))
    else
      Armed(At(s, i, Over).(expiresAt := result.expiresAt, absolute := Earlier(s.absolute, result.absolute)), now)
  }

  /** Only the latest timer is unscheduled. */
  function Closed(s: State): State {
    s.(closed := true, timers := if s.timers == [] then [] else Stopped(s.timers, |s.timers| - 1),
       stops := if s.stops == 0 then 1 else s.stops)
  }

  datatype Event =
    | TimerFires(k: nat, now: int)
    | RenewSettles(i: nat, result: Option<Renewal>)
    | ApplySettles(i: nat, ok: bool, now: int)
    | Close

  predicate Enabled(s: State, e: Event) {
    match e
    case TimerFires(k, _) => k < |s.timers| && s.timers[k].live
    case RenewSettles(i, _) => i < |s.ticks| && s.ticks[i].stage.Renewing?
    case ApplySettles(i, _, _) => i < |s.ticks| && s.ticks[i].stage.Applying?
    case Close => true
  }

  function Apply(s: State, e: Event): State
    requires Enabled(s, e)
  {
    match e
    case TimerFires(k, now) => Ticked(s, k, now)
    case RenewSettles(i, result) => RenewalSettled(s, i, result)
    case ApplySettles(i, ok, now) => ApplySettled(s, i, ok, now)
    case Close => Closed(s)
  }

  predicate AtMost(a: Option<int>, b: Option<int>) { b.Some? ==> a.Some? && a.value <= b.value }

  /** Timer `k` is pending, or renewal `i` is in flight. */
  predicate Pending(s: State, k: nat) { k < |s.timers| && s.timers[k].live }

  predicate InFlight(s: State, i: nat) { i < |s.ticks| && !s.ticks[i].stage.Over? }

  /** At most one thing is going on, and nothing once a failure was reported. */
  ghost predicate OneAtATime(s: State) {
    && (forall k: nat :: Pending(s, k) ==> k == |s.timers| - 1)
    && (forall i: nat :: InFlight(s, i) ==> i == |s.ticks| - 1)
    && (forall k: nat, i: nat :: !(Pending(s, k) && InFlight(s, i)))
    && s.failures <= 1
    && (s.failures == 1 ==> forall n: nat :: !Pending(s, n) && !InFlight(s, n))
  }

  ghost predicate Inv(s: State) {
    && OneAtATime(s)
    && s.stops == (if s.closed then 1 else 0)
    && (s.closed ==> forall k: nat :: !Pending(s, k))
    && (forall i :: 0 <= i < |s.ticks| && s.ticks[i].deadline.Some? ==> s.ticks[i].at < s.ticks[i].deadline.value)
    && (forall i :: 0 <= i < |s.ticks| ==> AtMost(s.absolute, s.ticks[i].deadline))
    && (forall i, j :: 0 <= i <= j < |s.ticks| ==> AtMost(s.ticks[j].deadline, s.ticks[i].deadline))
  }

  lemma OpenedIsFine(expiresAt: int, absolute: Option<int>, now: int)
    ensures Inv(Opened(expiresAt, absolute, now))
  {
  }

  lemma KeepsTick(s: State, k: nat, now: int)
    requires Inv(s) && Enabled(s, TimerFires(k, now))
    ensures Inv(Ticked(s, k, now))
  {
    var t := Ticked(s, k, now);
    assert Pending(s, k);
    assert forall n: nat :: Pending(t, n) ==> Pending(s, n) && n != k;
    assert forall i: nat :: i < |s.ticks| && InFlight(t, i) ==> InFlight(s, i);
  }

  lemma KeepsRenewal(s: State, i: nat, result: Option<Renewal>)
    requires Inv(s) && Enabled(s, RenewSettles(i, result))
    ensures Inv(RenewalSettled(s, i, result))
  {
    var t := RenewalSettled(s, i, result);
    assert InFlight(s, i);
    assert forall n: nat :: Pending(t, n) <==> Pending(s, n);
    assert forall n: nat :: InFlight(t, n) ==> InFlight(s, n);
  }

  lemma KeepsApply(s: State, i: nat, ok: bool, now: int)
    requires Inv(s) && Enabled(s, ApplySettles(i, ok, now))
    ensures Inv(ApplySettled(s, i, ok, now)) && AtMost(ApplySettled(s, i, ok, now).absolute, s.absolute)
  {
    var t := ApplySettled(s, i, ok, now);
    assert InFlight(s, i);
    assert forall n: nat :: n < |s.timers| && Pending(t, n) ==> Pending(s, n);
    assert forall n: nat :: InFlight(t, n) ==> InFlight(s, n) && n != i;
  }

  lemma KeepsClose(s: State)
    requires Inv(s)
    ensures Inv(Closed(s))
  {
    var t := Closed(s);
    assert forall n: nat :: Pending(t, n) ==> Pending(s, n) && n != |s.timers| - 1;
    assert forall n: nat :: InFlight(t, n) <==> InFlight(s, n);
  }

  lemma KeepsStep(s: State, e: Event)
    requires Inv(s) && Enabled(s, e)
    ensures Inv(Apply(s, e)) && AtMost(Apply(s, e).absolute, s.absolute)
  {
    match e
    case TimerFires(k, now) => KeepsTick(s, k, now);
    case RenewSettles(i, result) => KeepsRenewal(s, i, result);
    case ApplySettles(i, ok, now) => KeepsApply(s, i, ok, now);
    case Close => KeepsClose(s);
  }

  ghost predicate Run(s: State, events: seq<Event>)
    decreases |events|
  {
    events == [] || (Enabled(s, events[0]) && Run(Apply(s, events[0]), events[1..]))
  }

  ghost function End(s: State, events: seq<Event>): State
    requires Run(s, events)
    decreases |events|
  {
    if events == [] then s else End(Apply(s, events[0]), events[1..])
  }

  lemma {:induction false} RunKeeps(s: State, events: seq<Event>)
    requires Inv(s) && Run(s, events)
    ensures Inv(End(s, events)) && AtMost(End(s, events).absolute, s.absolute)
    decreases |events|
  {
    if events != [] {
      KeepsStep(s, events[0]);
      RunKeeps(Apply(s, events[0]), events[1..]);
    }
  }

  /**
   Every run: one stop once closed and none before, at most one failure, never two of a pending timer and a renewal
   at once, renewals only before the absolute deadline of their time, and that deadline never later than the one the
   lease was opened with.
   */
  lemma LeaseIsSafe(expiresAt: int, absolute: Option<int>, now: int, events: seq<Event>)
    requires Run(Opened(expiresAt, absolute, now), events)
    ensures var s := End(Opened(expiresAt, absolute, now), events);
      && s.stops == (if Close in events then 1 else 0)
      && OneAtATime(s)
      && AtMost(s.absolute, absolute)
      && (forall i :: 0 <= i < |s.ticks| ==>
            && AtMost(s.ticks[i].deadline, absolute)
            && (s.ticks[i].deadline.Some? ==> s.ticks[i].at < s.ticks[i].deadline.value))
  {
    OpenedIsFine(expiresAt, absolute, now);
    RunKeeps(Opened(expiresAt, absolute, now), events);
    StartDeadlines(Opened(expiresAt, absolute, now), events, absolute);
    ClosedMeansCloseCalled(Opened(expiresAt, absolute, now), events);
  }

  lemma {:induction false} StartDeadlines(s: State, events: seq<Event>, bound: Option<int>)
    requires Run(s, events) && AtMost(s.absolute, bound)
    requires forall i :: 0 <= i < |s.ticks| ==> AtMost(s.ticks[i].deadline, bound)
    ensures forall i :: 0 <= i < |End(s, events).ticks| ==> AtMost(End(s, events).ticks[i].deadline, bound)
    decreases |events|
  {
    if events != [] { StartDeadlines(Apply(s, events[0]), events[1..], bound); }
  }

  lemma {:induction false} ClosedMeansCloseCalled(s: State, events: seq<Event>)
    requires Run(s, events)
    ensures End(s, events).closed <==> s.closed || Close in events
    decreases |events|
  {
    if events != [] {
      ClosedMeansCloseCalled(Apply(s, events[0]), events[1..]);
      assert events == [events[0]] + events[1..];
    }
  }

  /** After `close` nothing is reported, renewed, armed or stopped again, whatever was in flight. */
  lemma {:induction false} ClosedStaysQuiet(s: State, events: seq<Event>)
    requires Inv(s) && s.closed && Run(s, events)
    ensures var t := End(s, events);
      t.failures == s.failures && |t.ticks| == |s.ticks| && |t.timers| == |s.timers| && t.stops == 1
    decreases |events|
  {
    if events != [] {
      KeepsStep(s, events[0]);
      if events[0].TimerFires? { assert Pending(s, events[0].k); }
      ClosedStaysQuiet(Apply(s, events[0]), events[1..]);
    }
  }

  /** After a failure is reported the lease never wakes again. */
  lemma {:induction false} FailureIsFinal(s: State, events: seq<Event>)
    requires Inv(s) && s.failures == 1 && Run(s, events)
    ensures End(s, events).failures == 1 && End(s, events).ticks == s.ticks && |End(s, events).timers| == |s.timers|
    decreases |events|
  {
    if events != [] {
      KeepsStep(s, events[0]);
      match events[0]
      case TimerFires(k, _) => assert Pending(s, k);
      case RenewSettles(i, _) => assert InFlight(s, i);
      case ApplySettles(i, _, _) => assert InFlight(s, i);
      case Close => FailureIsFinal(Apply(s, events[0]), events[1..]);
    }
  }

  /** The next renewal is armed a minute before the nearer deadline, or a second from now when that is sooner. */
  lemma ArmedAMinuteEarly(s: State, now: int)
    requires !s.closed
    ensures var timers := Armed(s, now).timers;
      var due := timers[|timers| - 1].due;
      && due >= now + SHORTEST
      && (due > now + SHORTEST ==>
            due + MARGIN <= s.expiresAt && AtMost(Some(due + MARGIN), s.absolute)
            && (due + MARGIN == s.expiresAt || s.absolute == Some(due + MARGIN)))
  {
  }

  // ---- the lease stays awake ----------------------------------------------------------------

  /** An open lease without a reported failure has a pending timer or a renewal in flight. */
  ghost predicate Awake(s: State) {
    !s.closed && s.failures == 0 ==> (exists k: nat :: Pending(s, k)) || (exists i: nat :: InFlight(s, i))
  }

  lemma StepStaysAwake(s: State, e: Event)
    requires Inv(s) && Awake(s) && Enabled(s, e)
    ensures Awake(Apply(s, e))
  {
    var t := Apply(s, e);
    match e
    case TimerFires(k, now) => if |t.ticks| > |s.ticks| { assert InFlight(t, |s.ticks|); }
    case RenewSettles(i, result) => if result.Some? && !s.closed { assert InFlight(t, i); }
    case ApplySettles(i, ok, now) => if ok && !s.closed { assert Pending(t, |s.timers|); }
    case Close =>
  }

  lemma {:induction false} RunStaysAwake(s: State, events: seq<Event>)
    requires Inv(s) && Awake(s) && Run(s, events)
    ensures Awake(End(s, events))
    decreases |events|
  {
    if events != [] {
      KeepsStep(s, events[0]);
      StepStaysAwake(s, events[0]);
      RunStaysAwake(Apply(s, events[0]), events[1..]);
    }
  }

  /** In every run an open lease that has reported no failure has exactly one of a pending timer and a renewal in flight. */
  lemma OpenLeaseStaysAwake(expiresAt: int, absolute: Option<int>, now: int, events: seq<Event>)
    requires Run(Opened(expiresAt, absolute, now), events)
    ensures var s := End(Opened(expiresAt, absolute, now), events);
      !s.closed && s.failures == 0 ==> ((exists k: nat :: Pending(s, k)) <==> !(exists i: nat :: InFlight(s, i)))
  {
    var s := Opened(expiresAt, absolute, now);
    OpenedIsFine(expiresAt, absolute, now);
    assert Pending(s, 0);
    RunStaysAwake(s, events);
    RunKeeps(s, events);
  }

  /** The step reports a failure: the deadline has passed, or the renewal or its application rejects. */
  predicate Fails(s: State, e: Event)
    requires Enabled(s, e)
  {
    !s.closed
    && match e
       case TimerFires(_, now) => s.absolute.Some? && now >= s.absolute.value
       case RenewSettles(_, result) => result.None?
       case ApplySettles(_, ok, _) => !ok
       case Close => false
  }

  ghost predicate EverFails(s: State, events: seq<Event>)
    requires Run(s, events)
    decreases |events|
  {
    events != [] && (Fails(s, events[0]) || EverFails(Apply(s, events[0]), events[1..]))
  }

  /** A failure is reported exactly when something fails while the lease is open. */
  lemma {:induction false} FailsExactly(s: State, events: seq<Event>)
    requires Inv(s) && Run(s, events)
    ensures End(s, events).failures == 1 <==> s.failures == 1 || EverFails(s, events)
    decreases |events|
  {
    if events != [] {
      KeepsStep(s, events[0]);
      FailsExactly(Apply(s, events[0]), events[1..]);
    }
  }

  /** `due` is a minute before the nearest of three deadlines, or a second from now when that is later. */
  predicate WellTimed(due: int, now: int, a: int, b: Option<int>, c: Option<int>) {
    && (due == now + 1_000 || due + 60_000 == a || Some(due + 60_000) == b || Some(due + 60_000) == c)
    && due >= now + 1_000
    && (due > now + 1_000 ==> due + 60_000 <= a && AtMost(Some(due + 60_000), b) && AtMost(Some(due + 60_000), c))
    && (a >= now + 61_000 && AtMost(Some(now + 61_000), b) && AtMost(Some(now + 61_000), c) ==>
          due + 60_000 == a || Some(due + 60_000) == b || Some(due + 60_000) == c)
  }

  lemma OpenedIsArmed(expiresAt: int, absolute: Option<int>, now: int)
    ensures var s := Opened(expiresAt, absolute, now);
      Pending(s, 0) && |s.timers| == 1 && WellTimed(s.timers[0].due, now, expiresAt, absolute, None)
  {
  }

  /**
   An applied renewal of an open lease leaves it with one pending timer, for the new expiry and the nearer of the two
   absolute deadlines, and remembers both.
   */
  lemma RenewedIsArmed(s: State, i: nat, now: int)
    requires Inv(s) && Enabled(s, ApplySettles(i, true, now)) && !s.closed
    ensures
      var t, result := ApplySettled(s, i, true, now), s.ticks[i].stage.result;
      && t.expiresAt == result.expiresAt
      && AtMost(t.absolute, s.absolute) && AtMost(t.absolute, result.absolute) && (t.absolute == s.absolute || t.absolute == result.absolute)
      && |t.timers| == |s.timers| + 1
      && (forall k: nat :: Pending(t, k) <==> k == |s.timers|)
      && WellTimed(t.timers[|s.timers|].due, now, result.expiresAt, s.absolute, result.absolute)
      && !t.ticks[i].stage.Applying? && t.failures == s.failures
  {
    assert InFlight(s, i);
    assert forall k: nat :: k < |s.timers| ==> (Pending(ApplySettled(s, i, true, now), k) <==> Pending(s, k));
  }

  class MobilePlaybackLease {
    var closed: bool
    var timers: seq<Timer>                 // `timer` is the last one
    var ticks: seq<Tick>
    var expiresAt: int
    var absolute: Option<int>
    var stops: nat
    var failures: nat

    ghost function View(): State
      reads this
    {
      State(closed, timers, ticks, expiresAt, absolute, stops, failures)
    }

    ghost predicate Valid()
      reads this
    {
      Inv(View())
    }

    constructor (expiresAt: int, absolute: Option<int>, now: int)
      ensures Valid() && View() == Opened(expiresAt, absolute, now)
    {
      OpenedIsFine(expiresAt, absolute, now);
      this.closed, this.expiresAt, this.absolute := false, expiresAt, absolute;
      this.stops, this.failures, this.ticks := 0, 0, [];
      this.timers := [Timer(Due(expiresAt, absolute, now), true)];
    }

    method Arm(now: int)
      modifies this`timers
      ensures View() == Armed(old(View()), now)
    {
      if closed { return; }
      timers := timers + [Timer(Due(expiresAt, absolute, now), true)];
    }

    method Fail()
      modifies this`failures
      ensures View() == Caught(old(View()))
    {
      if !closed { failures := failures + 1; }
    }

    method FireTimer(k: nat, now: int) returns (renews: bool)
      requires Valid() && Enabled(View(), TimerFires(k, now))
      modifies this
      ensures View() == Ticked(old(View()), k, now) && Valid()
      ensures renews <==> absolute.Some? ==> now < absolute.value
    {
      KeepsStep(View(), TimerFires(k, now));
      timers := timers[k := timers[k].(live := false)];
      renews := !(absolute.Some? && now >= absolute.value);
      if renews {
        ticks := ticks + [Tick(now, absolute, Renewing)];
      } else {
        Fail();
      }
    }

    method AfterRenew(i: nat, result: Option<Renewal>)
      requires Valid() && Enabled(View(), RenewSettles(i, result))
      modifies this
      ensures View() == RenewalSettled(old(View()), i, result) && Valid()
    {
      KeepsStep(View(), RenewSettles(i, result));
      if result.None? {
        ticks := ticks[i := ticks[i].(stage := Over)];
        Fail();
      } else if closed {
        ticks := ticks[i := ticks[i].(stage := Over)];
      } else {
        ticks := ticks[i := ticks[i].(stage := Applying(result.value))];
      }
    }

    method AfterApply(i: nat, ok: bool, now: int)
      requires Valid() && Enabled(View(), ApplySettles(i, ok, now))
      modifies this
      ensures View() == ApplySettled(old(View()), i, ok, now) && Valid()
    {
      KeepsStep(View(), ApplySettles(i, ok, now));
      var renewed := ticks[i].stage.result;
      ticks := ticks[i := ticks[i].(stage := Over)];
      if !ok {
        Fail();
        return;
      }
      expiresAt := renewed.expiresAt;
      absolute := Earlier(absolute, renewed.absolute);
      Arm(now);
    }

    method CloseLease()
      requires Valid()
      modifies this
      ensures View() == Closed(old(View())) && Valid() && stops == 1
    {
      KeepsStep(View(), Close);
      closed := true;
      if timers != [] { timers := timers[|timers| - 1 := timers[|timers| - 1].(live := false)]; }
      if stops == 0 { stops := 1; }
    }
  }
}
