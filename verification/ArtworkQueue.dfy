/** The coalescing artwork queue: cacheArtworkNow in apps/desktop/src/main.ts. */
module ArtworkQueue {
  import opened Options

  datatype Stage = Waking | Passing(snapshot: nat) | Ended

  /** One promise chain; `failed` is sticky over its passes. */
  datatype Runner = Runner(stage: Stage, failed: bool)

  /** A full-library request: its snapshot number and the chain it awaits. */
  datatype Caller = Caller(snapshot: nat, runner: nat)

  datatype Pass = Pass(snapshot: nat, runner: nat, ok: bool)

  /** Snapshots are numbered by request.  `passes` is the history of finished passes. */
  datatype State = State(
    callers: seq<Caller>,
    pending: Option<nat>,                 // pendingArtworkSources
    queue: Option<nat>,                   // artworkCacheQueue
    runners: seq<Runner>,
    passes: seq<Pass>)

  function Idle(): State { State([], None, None, [], []) }

  function Requested(s: State): State {
    var r := if s.queue.Some? then s.queue.value else |s.runners|;
    s.(callers := s.callers + [Caller(|s.callers|, r)],
       pending := Some(|s.callers|),
       queue := Some(r),
       runners := s.runners + if s.queue.Some? then [] else [Runner(Waking, false)])
  }

  /** The loop head: take the newest snapshot, or end. */
  function Looped(s: State, r: nat): State
    requires r < |s.runners|
  {
    s.(pending := None,
       queue := if s.pending.Some? then s.queue else None,
       runners := s.runners[r := s.runners[r].(stage := if s.pending.Some? then Passing(s.pending.value) else Ended)])
  }

  function PassRecorded(s: State, r: nat, ok: bool): State
    requires r < |s.runners| && s.runners[r].stage.Passing?
  {
    s.(passes := s.passes + [Pass(s.runners[r].stage.snapshot, r, ok)],
       runners := s.runners[r := s.runners[r].(failed := s.runners[r].failed || !ok)])
  }

  datatype Event = Request | Wake(r: nat) | PassEnds(r: nat, ok: bool)

  predicate Enabled(s: State, e: Event) {
    match e
    case Request => true
    case Wake(r) => r < |s.runners| && s.runners[r].stage.Waking?
    case PassEnds(r, _) => r < |s.runners| && s.runners[r].stage.Passing?
  }

  function Apply(s: State, e: Event): State
    requires Enabled(s, e)
  {
    match e
    case Request => Requested(s)
    case Wake(r) => Looped(s, r)
    case PassEnds(r, ok) => Looped(PassRecorded(s, r, ok), r)
  }

  predicate Served(s: State, c: Caller) { exists p :: p in s.passes && p.runner == c.runner && c.snapshot <= p.snapshot }

  predicate HasFailure(s: State, r: nat) { exists p :: p in s.passes && p.runner == r && !p.ok }

  /** The newest snapshot requested, if any. */
  function Newest(s: State): int { |s.callers| - 1 }

  ghost predicate Inv(s: State) {
    && (forall r :: 0 <= r < |s.runners| ==> (s.runners[r].stage.Ended? <==> s.queue != Some(r)))
    && (s.queue.Some? ==> s.queue.value < |s.runners|)
    && (s.pending.Some? ==> s.queue.Some? && s.pending.value == Newest(s))
    && (forall r :: 0 <= r < |s.runners| && s.runners[r].stage.Waking? ==> s.pending.Some?)
    && (forall r :: 0 <= r < |s.runners| && s.runners[r].stage.Passing? ==>
          if s.pending.None? then s.runners[r].stage.snapshot == Newest(s) else s.runners[r].stage.snapshot < s.pending.value)
    && (s.queue.None? && s.callers != [] ==> s.passes != [] && s.passes[|s.passes| - 1].snapshot == Newest(s))
    && (forall i, j :: 0 <= i < j < |s.passes| ==> s.passes[i].snapshot < s.passes[j].snapshot)
    && (forall p :: p in s.passes ==> p.snapshot <= Newest(s) && p.runner < |s.runners| && (s.pending.Some? ==> p.snapshot < s.pending.value))
    && (forall r, p :: 0 <= r < |s.runners| && p in s.passes && s.runners[r].stage.Passing? ==> p.snapshot < s.runners[r].stage.snapshot)
    && (forall c :: c in s.callers ==> c.runner < |s.runners| && c.snapshot <= Newest(s) && (s.runners[c.runner].stage.Ended? ==> Served(s, c)))
    && (forall r :: 0 <= r < |s.runners| ==> (s.runners[r].failed <==> HasFailure(s, r)))
  }

  lemma KeepsRequest(s: State)
    requires Inv(s)
    ensures Inv(Requested(s))
  {
    var t := Requested(s);
    assert forall c :: Served(t, c) <==> Served(s, c);
    assert forall r: nat :: HasFailure(t, r) <==> HasFailure(s, r);
    forall r | 0 <= r < |t.runners|
      ensures t.runners[r].failed <==> HasFailure(t, r)
    {
      if r == |s.runners| { assert forall p :: p in s.passes ==> p.runner < |s.runners|; }
    }
  }

  lemma KeepsWake(s: State, r: nat)
    requires Inv(s) && Enabled(s, Wake(r))
    ensures Inv(Looped(s, r))
  {
    var t := Looped(s, r);
    assert forall c :: Served(t, c) <==> Served(s, c);
    assert forall i: nat :: HasFailure(t, i) <==> HasFailure(s, i);
  }

  lemma FailureRecorded(s: State, r: nat, ok: bool, i: nat)
    requires Enabled(s, PassEnds(r, ok))
    ensures HasFailure(Apply(s, PassEnds(r, ok)), i) <==> HasFailure(s, i) || (i == r && !ok)
  {
    var t := Apply(s, PassEnds(r, ok));
    var last := Pass(s.runners[r].stage.snapshot, r, ok);
    assert t.passes == s.passes + [last];
    assert last in t.passes;
    assert forall p :: p in s.passes ==> p in t.passes;
  }

  lemma ServedAfterPass(s: State, r: nat, ok: bool, c: Caller)
    requires Inv(s) && Enabled(s, PassEnds(r, ok)) && c in s.callers
    requires Apply(s, PassEnds(r, ok)).runners[c.runner].stage.Ended?
    ensures Served(Apply(s, PassEnds(r, ok)), c)
  {
    var t := Apply(s, PassEnds(r, ok));
    var last := Pass(s.runners[r].stage.snapshot, r, ok);
    assert t.passes == s.passes + [last] && last in t.passes;
    if c.runner != r {
      var p :| p in s.passes && p.runner == c.runner && c.snapshot <= p.snapshot;
      assert p in t.passes;
    }
  }

  lemma KeepsPass(s: State, r: nat, ok: bool)
    requires Inv(s) && Enabled(s, PassEnds(r, ok))
    ensures Inv(Apply(s, PassEnds(r, ok)))
  {
    var t := Apply(s, PassEnds(r, ok));
    var last := Pass(s.runners[r].stage.snapshot, r, ok);
    assert t.passes == s.passes + [last];
    assert forall p :: p in t.passes <==> p in s.passes || p == last;
    forall i | 0 <= i < |t.runners|
      ensures t.runners[i].failed <==> HasFailure(t, i)
    {
      FailureRecorded(s, r, ok, i);
    }
    forall c | c in t.callers && t.runners[c.runner].stage.Ended?
      ensures Served(t, c)
    {
      ServedAfterPass(s, r, ok, c);
    }
  }

  lemma KeepsStep(s: State, e: Event)
    requires Inv(s) && Enabled(s, e)
    ensures Inv(Apply(s, e))
  {
    match e
    case Request => KeepsRequest(s);
    case Wake(r) => KeepsWake(s, r);
    case PassEnds(r, ok) => KeepsPass(s, r, ok);
  }

  ghost predicate Run(s: State, events: seq<Event>)
    decreases |events|
  {
    events == [] || (Enabled(s, events[0]) && Run(Apply(s, events[0]), events[1..]))
  }

  ghost function End(s: State, events: seq<Event>): State
    requires Run(s, events)
    decreases |events|
  {
    if events == [] then s else End(Apply(s, events[0]), events[1..])
  }

  lemma {:induction false} RunKeeps(s: State, events: seq<Event>)
    requires Inv(s) && Run(s, events)
    ensures Inv(End(s, events))
    decreases |events|
  {
    if events != [] {
      KeepsStep(s, events[0]);
      RunKeeps(Apply(s, events[0]), events[1..]);
    }
  }

  /** Two chains never run a full pass at the same time, and passes never go back to an older snapshot. */
  lemma OnePassAtATime(events: seq<Event>, r: nat, q: nat)
    requires Run(Idle(), events)
    requires var s := End(Idle(), events);
      r < |s.runners| && q < |s.runners| && s.runners[r].stage.Passing? && s.runners[q].stage.Passing?
    ensures r == q
    ensures var s := End(Idle(), events); forall p :: p in s.passes ==> p.snapshot < s.runners[r].stage.snapshot
  {
    RunKeeps(Idle(), events);
  }

  /** With nothing running, the last pass was over the last snapshot requested. */
  lemma NewestIsProcessed(events: seq<Event>)
    requires Run(Idle(), events)
    requires var s := End(Idle(), events); s.callers != [] && forall r :: 0 <= r < |s.runners| ==> s.runners[r].stage.Ended?
    ensures var s := End(Idle(), events);
      s.passes != [] && s.passes[|s.passes| - 1].snapshot == |s.callers| - 1
  {
    RunKeeps(Idle(), events);
  }

  /**
   A caller's promise settles only after its chain made a pass over a snapshot at least as new as the caller's, and it
   rejects exactly when some pass of that chain failed, even if a later one succeeded.
   */
  lemma CallersAreServed(events: seq<Event>, n: nat)
    requires Run(Idle(), events)
    requires var s := End(Idle(), events); n < |s.callers| && s.callers[n].runner < |s.runners| && s.runners[s.callers[n].runner].stage.Ended?
    ensures var s := End(Idle(), events);
      var c := s.callers[n];
      && (exists p :: p in s.passes && p.runner == c.runner && c.snapshot <= p.snapshot)
      && (s.runners[c.runner].failed <==> exists p :: p in s.passes && p.runner == c.runner && !p.ok)
  {
    RunKeeps(Idle(), events);
    var s := End(Idle(), events);
    assert s.callers[n] in s.callers;
    assert Served(s, s.callers[n]);
    assert s.runners[s.callers[n].runner].failed <==> HasFailure(s, s.callers[n].runner);
  }

  class Queue {
    var callers: seq<Caller>
    var pending: Option<nat>
    var queue: Option<nat>
    var runners: seq<Runner>
    ghost var passes: seq<Pass>

    ghost function View(): State
      reads this
    {
      State(callers, pending, queue, runners, passes)
    }

    ghost predicate Valid()
      reads this
    {
      Inv(View())
    }

    constructor ()
      ensures Valid() && View() == Idle()
    {
      callers, pending, queue, runners, passes := [], None, None, [], [];
    }

    method CacheArtworkNow() returns (n: nat)
      requires Valid()
      modifies this
      ensures View() == Requested(old(View())) && n == |old(callers)| && Valid()
      ensures pending == Some(n) && callers[n].runner < |runners| && !runners[callers[n].runner].stage.Ended?
    {
      KeepsRequest(View());
      n := |callers|;
      pending := Some(n);
      if queue.None? {
        queue := Some(|runners|);
        runners := runners + [Runner(Waking, false)];
      }
      callers := callers + [Caller(n, queue.value)];
    }

    /** The head of the loop, up to the next await or the end. */
    method Loop(r: nat)
      requires r < |runners|
      modifies this
      ensures View() == Looped(old(View()), r)
    {
      match pending
      case Some(sources) =>
        pending := None;
        runners := runners[r := runners[r].(stage := Passing(sources))];
      case None =>
        queue := None;
        runners := runners[r := runners[r].(stage := Ended)];
    }

    method WakeUp(r: nat)
      requires Valid() && Enabled(View(), Wake(r))
      modifies this
      ensures View() == Apply(old(View()), Wake(r)) && Valid()
    {
      KeepsWake(View(), r);
      Loop(r);
    }

    method PassEnded(r: nat, ok: bool)
      requires Valid() && Enabled(View(), PassEnds(r, ok))
      modifies this
      ensures View() == Apply(old(View()), PassEnds(r, ok)) && Valid()
    {
      KeepsPass(View(), r, ok);
      passes := passes + [Pass(runners[r].stage.snapshot, r, ok)];
      if !ok { runners := runners[r := runners[r].(failed := true)]; }
      assert runners == PassRecorded(old(View()), r, ok).runners;
      Loop(r);
    }
  }
}
