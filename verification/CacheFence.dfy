/**
 How a cache clear beats older work (saveMobileOfflineSnapshot, loadMobileOfflineSnapshot and
 clearMobileOfflineSnapshot in apps/mobile/mobileOfflineCache.ts): one queue of saves and clears, a generation for
 each host, and loads that run beside the queue.
 */
module CacheFence {
  import opened Options

  type Host = string
  type Path = string

  /** `Other` stands for the pending-progress operations, which share the queue. */
  datatype Task = Save(host: Host, generation: nat) | Clear(host: Host, generation: nat) | Other

  datatype Phase = Queued | Writing | Wrote | Settled(ok: bool)

  datatype Job = Job(task: Task, phase: Phase)

  datatype Reading = Snapshot | Progress | Answered(found: bool)

  datatype Load = Load(host: Host, generation: nat, reading: Reading)

  /** Jobs in call order; `rows` remembers which job wrote each stored row, metadata included. */
  datatype State = State(jobs: seq<Job>, generations: map<Host, nat>, rows: map<(Host, Path), nat>, loads: seq<Load>)

  function Empty(): State { State([], map[], map[], []) }

  function Generation(s: State, h: Host): nat { if h in s.generations then s.generations[h] else 0 }

  function Queue(s: State, task: Task): State { s.(jobs := s.jobs + [Job(task, Queued)]) }

  function ClearCalled(s: State, h: Host): State {
    if h == "" then s
    else Queue(s, Clear(h, Generation(s, h) + 1)).(generations := s.generations[h := Generation(s, h) + 1])
  }

  function At(s: State, i: nat, p: Phase): State
    requires i < |s.jobs|
  {
    s.(jobs := s.jobs[i := s.jobs[i].(phase := p)])
  }

  /** The check at the head of a queued save. */
  function Started(s: State, i: nat): State
    requires i < |s.jobs|
  {
    var task := s.jobs[i].task;
    At(s, i, if task.Save? && task.generation != Generation(s, task.host) then Settled(true) else Writing)
  }

  /** A save writes some rows of its host and drops others, of any host; a clear drops all of its host. */
  function Committed(s: State, i: nat, wrote: set<Path>, dropped: set<(Host, Path)>): State
    requires i < |s.jobs|
  {
    var task := s.jobs[i].task;
    At(s.(rows := match task
                  case Save(h, _) => s.rows + (map p | p in wrote :: (h, p) := i) - dropped
                  case Clear(h, _) => map k | k in s.rows && k.0 != h :: s.rows[k]
                  case Other => s.rows), i, Wrote)
  }

  function LoadAt(s: State, n: nat, r: Reading): State
    requires n < |s.loads|
  {
    s.(loads := s.loads[n := s.loads[n].(reading := r)])
  }

  predicate LoadIsCurrent(s: State, n: nat)
    requires n < |s.loads|
  {
    s.loads[n].generation == Generation(s, s.loads[n].host)
  }

  datatype Content = Missing | Rejected | Usable

  /** After the metadata query: a row that cannot be used makes the load clear the host itself. */
  function SnapshotRead(s: State, n: nat, content: Content): State
    requires n < |s.loads|
  {
    var current := LoadIsCurrent(s, n);
    LoadAt(if current && content.Rejected? then ClearCalled(s, s.loads[n].host) else s, n,
           if current && content.Usable? then Progress else Answered(false))
  }

  function ProgressRead(s: State, n: nat): State
    requires n < |s.loads|
  {
    LoadAt(s, n, Answered(LoadIsCurrent(s, n)))
  }

  datatype Event =
    | CallSave(host: Host, generation: nat)       // the generation may have been captured long before
    | CallClear(host: Host)
    | CallOther
    | CallLoad(host: Host)
    | Start(i: nat)
    | Commit(i: nat, wrote: set<Path>, dropped: set<(Host, Path)>)
    | Finish(i: nat)
    | Fail(i: nat)
    | ReadSnapshot(n: nat, content: Content)
    | ReadProgress(n: nat)
    | LoadFails(n: nat)

  predicate Enabled(s: State, e: Event) {
    match e
    case CallSave(h, g) => g <= Generation(s, h)
    case CallClear(_) => true
    case CallOther => true
    case CallLoad(_) => true
    case Start(i) => i < |s.jobs| && s.jobs[i].phase.Queued? && forall j :: 0 <= j < i ==> s.jobs[j].phase.Settled?
    case Commit(i, _, _) => i < |s.jobs| && s.jobs[i].phase.Writing?
    case Finish(i) => i < |s.jobs| && s.jobs[i].phase.Wrote?
    case Fail(i) => i < |s.jobs| && s.jobs[i].phase.Writing?
    case ReadSnapshot(n, _) => n < |s.loads| && s.loads[n].reading.Snapshot?
    case ReadProgress(n) => n < |s.loads| && s.loads[n].reading.Progress?
    case LoadFails(n) => n < |s.loads| && !s.loads[n].reading.Answered?
  }

  function Apply(s: State, e: Event): State
    requires Enabled(s, e)
  {
    match e
    case CallSave(h, g) => Queue(s, Save(h, g))
    case CallClear(h) => ClearCalled(s, h)
    case CallOther => Queue(s, Other)
    case CallLoad(h) => s.(loads := s.loads + [Load(h, Generation(s, h), if h == "" then Answered(false) else Snapshot)])
    case Start(i) => Started(s, i)
    case Commit(i, wrote, dropped) => Committed(s, i, wrote, dropped)
    case Finish(i) => At(s, i, Settled(true))
    case Fail(i) => At(s, i, Settled(false))
    case ReadSnapshot(n, content) => SnapshotRead(s, n, content)
    case ReadProgress(n) => ProgressRead(s, n)
    case LoadFails(n) => LoadAt(s, n, Answered(false))
  }

  // ---- the invariant -----------------------------------------------------------------------

  predicate Fifo(s: State) {
    forall i, j :: 0 <= i < j < |s.jobs| && !s.jobs[j].phase.Queued? ==> s.jobs[i].phase.Settled?
  }

  predicate ClearOf(s: State, c: nat, h: Host) { c < |s.jobs| && s.jobs[c].task.Clear? && s.jobs[c].task.host == h }

  predicate Cleared(s: State, c: nat, h: Host) {
    ClearOf(s, c, h) && (s.jobs[c].phase.Wrote? || s.jobs[c].phase == Settled(true))
  }

  /** `w` is a save of the host whose generation no earlier clear is ahead of. */
  ghost predicate Writer(s: State, w: nat, h: Host) {
    && w < |s.jobs| && s.jobs[w].task.Save? && s.jobs[w].task.host == h && !s.jobs[w].phase.Queued?
    && (forall c: nat :: c < w && ClearOf(s, c, h) ==> s.jobs[c].task.generation <= s.jobs[w].task.generation)
  }

  /** Written by a save behind every completed clear of its host. */
  ghost predicate RowOk(s: State, w: nat, h: Host) { Writer(s, w, h) && forall c: nat :: Cleared(s, c, h) ==> c < w }

  ghost predicate JobOk(s: State, i: nat)
    requires i < |s.jobs|
  {
    match s.jobs[i].task
    case Save(h, g) => g <= Generation(s, h) && (s.jobs[i].phase.Writing? || s.jobs[i].phase.Wrote? ==> Writer(s, i, h))
    case Clear(h, g) => g <= Generation(s, h)
    case Other => true
  }

  ghost predicate Inv(s: State) {
    && Fifo(s)
    && (forall i :: 0 <= i < |s.jobs| ==> JobOk(s, i))
    && (forall k :: k in s.rows ==> RowOk(s, s.rows[k], k.0))
    && (forall n :: 0 <= n < |s.loads| ==> s.loads[n].generation <= Generation(s, s.loads[n].host))
  }

  /** A step that completes no clear keeps what is known of writers. */
  lemma WriterStays(s: State, t: State, w: nat, h: Host)
    requires Writer(s, w, h) && |s.jobs| <= |t.jobs|
    requires forall i :: 0 <= i < |s.jobs| ==>
      t.jobs[i].task == s.jobs[i].task && (!s.jobs[i].phase.Queued? ==> !t.jobs[i].phase.Queued?)
    ensures Writer(t, w, h)
  {
    forall c: nat | c < w && ClearOf(t, c, h)
      ensures t.jobs[c].task.generation <= t.jobs[w].task.generation
    {
      assert ClearOf(s, c, h);
    }
  }

  lemma QueueKeeps(s: State, task: Task, generations: map<Host, nat>)
    requires Inv(s)
    requires forall h :: Generation(s, h) <= Generation(s.(generations := generations), h)
    requires !task.Other? ==> task.generation <= Generation(s.(generations := generations), task.host)
    ensures Inv(Queue(s, task).(generations := generations))
  {
    var t := Queue(s, task).(generations := generations);
    forall i | 0 <= i < |t.jobs|
      ensures JobOk(t, i)
    {
      if i < |s.jobs| {
        assert JobOk(s, i);
        if s.jobs[i].task.Save? && Writer(s, i, s.jobs[i].task.host) { WriterStays(s, t, i, s.jobs[i].task.host); }
      }
    }
    RowsStay(s, t);
    assert forall h :: Generation(t, h) == Generation(s.(generations := generations), h);
  }

  lemma RowsStay(s: State, t: State)
    requires forall k :: k in s.rows ==> RowOk(s, s.rows[k], k.0)
    requires |s.jobs| <= |t.jobs|
    requires forall i :: 0 <= i < |s.jobs| ==>
      t.jobs[i].task == s.jobs[i].task && (!s.jobs[i].phase.Queued? ==> !t.jobs[i].phase.Queued?)
    requires forall c: nat, h :: Cleared(t, c, h) ==> Cleared(s, c, h)
    ensures forall k :: k in s.rows ==> RowOk(t, s.rows[k], k.0)
  {
    forall k | k in s.rows
      ensures RowOk(t, s.rows[k], k.0)
    {
      WriterStays(s, t, s.rows[k], k.0);
    }
  }

  lemma ClearCallKeeps(s: State, h: Host)
    requires Inv(s)
    ensures Inv(ClearCalled(s, h))
  {
    if h != "" { QueueKeeps(s, Clear(h, Generation(s, h) + 1), s.generations[h := Generation(s, h) + 1]); }
  }

  lemma PhaseKeepsJobs(s: State, i: nat, p: Phase)
    requires forall j :: 0 <= j < |s.jobs| ==> JobOk(s, j)
    requires i < |s.jobs| && !p.Queued?
    requires (p.Writing? || p.Wrote?) && s.jobs[i].task.Save? ==> Writer(At(s, i, p), i, s.jobs[i].task.host)
    ensures var t := At(s, i, p); forall j :: 0 <= j < |t.jobs| ==> JobOk(t, j)
  {
    var t := At(s, i, p);
    forall j | 0 <= j < |t.jobs|
      ensures JobOk(t, j)
    {
      assert JobOk(s, j);
      if j != i && s.jobs[j].task.Save? && Writer(s, j, s.jobs[j].task.host) { WriterStays(s, t, j, s.jobs[j].task.host); }
    }
  }

  lemma StartKeeps(s: State, i: nat)
    requires Inv(s) && Enabled(s, Start(i))
    ensures Inv(Started(s, i))
  {
    var t := Started(s, i);
    var task := s.jobs[i].task;
    if task.Save? && t.jobs[i].phase.Writing? {
      forall c: nat | c < i && ClearOf(t, c, task.host)
        ensures t.jobs[c].task.generation <= task.generation
      {
        assert JobOk(s, c);
      }
    }
    PhaseKeepsJobs(s, i, t.jobs[i].phase);
    assert forall c: nat, h :: Cleared(t, c, h) ==> Cleared(s, c, h);
    RowsStay(s, t);
    assert forall h :: Generation(t, h) == Generation(s, h);
  }

  lemma SettleKeeps(s: State, i: nat, ok: bool)
    requires Inv(s) && i < |s.jobs| && (if ok then s.jobs[i].phase.Wrote? else s.jobs[i].phase.Writing?)
    ensures Inv(At(s, i, Settled(ok)))
  {
    var t := At(s, i, Settled(ok));
    PhaseKeepsJobs(s, i, Settled(ok));
    RowsStay(s, t);
    assert forall h :: Generation(t, h) == Generation(s, h);
  }

  lemma CommitKeeps(s: State, i: nat, wrote: set<Path>, dropped: set<(Host, Path)>)
    requires Inv(s) && Enabled(s, Commit(i, wrote, dropped))
    ensures Inv(Committed(s, i, wrote, dropped))
  {
    var t := Committed(s, i, wrote, dropped);
    assert JobOk(s, i);
    if s.jobs[i].task.Save? { WriterStays(s, At(s, i, Wrote), i, s.jobs[i].task.host); }
    PhaseKeepsJobs(s, i, Wrote);
    assert forall j :: 0 <= j < |t.jobs| ==> (JobOk(t, j) <==> JobOk(At(s, i, Wrote), j)) by {
      forall j | 0 <= j < |t.jobs| ensures JobOk(t, j) <==> JobOk(At(s, i, Wrote), j) {
        assert forall w: nat, h :: Writer(t, w, h) <==> Writer(At(s, i, Wrote), w, h);
      }
    }
    forall k | k in t.rows
      ensures RowOk(t, t.rows[k], k.0)
    {
      CommitKeepsRow(s, i, wrote, dropped, k);
    }
    assert forall h :: Generation(t, h) == Generation(s, h);
  }

  lemma CommitKeepsRow(s: State, i: nat, wrote: set<Path>, dropped: set<(Host, Path)>, k: (Host, Path))
    requires Inv(s) && Enabled(s, Commit(i, wrote, dropped)) && k in Committed(s, i, wrote, dropped).rows
    ensures var t := Committed(s, i, wrote, dropped); RowOk(t, t.rows[k], k.0)
  {
    var t := Committed(s, i, wrote, dropped);
    assert JobOk(s, i);
    if k in s.rows && t.rows[k] == s.rows[k] {
      assert RowOk(s, s.rows[k], k.0);
      WriterStays(s, t, s.rows[k], k.0);
      assert s.jobs[i].task.Clear? ==> s.jobs[i].task.host != k.0;
      forall c: nat | Cleared(t, c, k.0)
        ensures c < s.rows[k]
      {
        assert c != i && Cleared(s, c, k.0);
      }
    } else {
      assert t.rows[k] == i && s.jobs[i].task.Save? && k.0 == s.jobs[i].task.host;
      WriterStays(s, t, i, k.0);
    }
  }

  lemma KeepsStep(s: State, e: Event)
    requires Inv(s) && Enabled(s, e)
    ensures Inv(Apply(s, e))
  {
    match e
    case CallSave(h, g) => QueueKeeps(s, Save(h, g), s.generations);
    case CallClear(h) => ClearCallKeeps(s, h);
    case CallOther => QueueKeeps(s, Other, s.generations);
    case Start(i) => StartKeeps(s, i);
    case Commit(i, wrote, dropped) => CommitKeeps(s, i, wrote, dropped);
    case Finish(i) => SettleKeeps(s, i, true);
    case Fail(i) => SettleKeeps(s, i, false);
    case ReadSnapshot(n, content) =>
      ClearCallKeeps(s, s.loads[n].host);
      LoadKeeps(if LoadIsCurrent(s, n) && content.Rejected? then ClearCalled(s, s.loads[n].host) else s, n, Apply(s, e).loads[n].reading);
    case ReadProgress(n) => LoadKeeps(s, n, Answered(LoadIsCurrent(s, n)));
    case LoadFails(n) => LoadKeeps(s, n, Answered(false));
    case CallLoad(h) => LoadsKeep(s, Apply(s, e).loads);
  }

  lemma LoadsKeep(s: State, loads: seq<Load>)
    requires Inv(s) && forall n :: 0 <= n < |loads| ==> loads[n].generation <= Generation(s, loads[n].host)
    ensures Inv(s.(loads := loads))
  {
    var t := s.(loads := loads);
    forall i | 0 <= i < |t.jobs|
      ensures JobOk(t, i)
    {
      assert JobOk(s, i);
      if s.jobs[i].task.Save? && Writer(s, i, s.jobs[i].task.host) { WriterStays(s, t, i, s.jobs[i].task.host); }
    }
    RowsStay(s, t);
    assert forall h :: Generation(t, h) == Generation(s, h);
  }

  lemma LoadKeeps(s: State, n: nat, r: Reading)
    requires Inv(s) && n < |s.loads|
    ensures Inv(LoadAt(s, n, r))
  {
    LoadsKeep(s, LoadAt(s, n, r).loads);
  }

  // ---- runs ------------------------------------------------------------------------------------

  ghost predicate Run(s: State, events: seq<Event>)
    decreases |events|
  {
    events == [] || (Enabled(s, events[0]) && Run(Apply(s, events[0]), events[1..]))
  }

  ghost function End(s: State, events: seq<Event>): State
    requires Run(s, events)
    decreases |events|
  {
    if events == [] then s else End(Apply(s, events[0]), events[1..])
  }

  lemma {:induction false} RunKeeps(s: State, events: seq<Event>)
    requires Inv(s) && Run(s, events)
    ensures Inv(End(s, events))
    decreases |events|
  {
    if events != [] {
      KeepsStep(s, events[0]);
      RunKeeps(Apply(s, events[0]), events[1..]);
    }
  }

  /**
   After any run, a row of a host whose clear deleted its rows was written by a save queued behind that clear and
   carrying a generation not older than the clear's own.
   */
  lemma ClearBeatsOlderSaves(events: seq<Event>, c: nat, k: (Host, Path))
    requires Run(Empty(), events)
    requires Cleared(End(Empty(), events), c, k.0) && k in End(Empty(), events).rows
    ensures var s := End(Empty(), events);
      var w := s.rows[k];
      && c < w < |s.jobs| && s.jobs[w].task.Save? && s.jobs[w].task.host == k.0
      && s.jobs[c].task.generation <= s.jobs[w].task.generation
  {
    RunKeeps(Empty(), events);
    assert RowOk(End(Empty(), events), End(Empty(), events).rows[k], k.0);
  }

  /** Until a save of the new generation is queued, a host whose clear has run has no rows. */
  lemma NoRowsUntilALaterSave(events: seq<Event>, c: nat, k: (Host, Path))
    requires Run(Empty(), events) && Cleared(End(Empty(), events), c, k.0)
    requires var s := End(Empty(), events); forall w :: c < w < |s.jobs| && s.jobs[w].task.Save? && s.jobs[w].task.host == k.0 ==>
      s.jobs[w].task.generation < s.jobs[c].task.generation
    ensures k !in End(Empty(), events).rows
  {
    if k in End(Empty(), events).rows { ClearBeatsOlderSaves(events, c, k); }
  }

  ghost predicate Calls(s: State, h: Host) {
    Generation(s, h) == 0 || exists c: nat :: ClearOf(s, c, h) && s.jobs[c].task.generation == Generation(s, h)
  }

  lemma StepCalls(s: State, e: Event, h: Host)
    requires Enabled(s, e) && Calls(s, h)
    ensures Calls(Apply(s, e), h)
  {
    var t := Apply(s, e);
    assert forall i :: 0 <= i < |s.jobs| ==> i < |t.jobs| && t.jobs[i].task == s.jobs[i].task;
    if Generation(t, h) == Generation(s, h) {
      if Generation(s, h) > 0 {
        var c: nat :| ClearOf(s, c, h) && s.jobs[c].task.generation == Generation(s, h);
        assert ClearOf(t, c, h);
      }
    } else {
      assert ClearOf(t, |s.jobs|, h);
    }
  }

  lemma {:induction false} RunCalls(s: State, events: seq<Event>, h: Host)
    requires Run(s, events) && Calls(s, h)
    ensures Calls(End(s, events), h)
    decreases |events|
  {
    if events != [] {
      StepCalls(s, events[0], h);
      RunCalls(Apply(s, events[0]), events[1..], h);
    }
  }

  /** A save reaching the head of the queue is skipped exactly when its host was cleared after its generation was taken. */
  lemma SkippedExactlyWhenCleared(events: seq<Event>, i: nat)
    requires Run(Empty(), events)
    requires Enabled(End(Empty(), events), Start(i)) && End(Empty(), events).jobs[i].task.Save?
    ensures var s := End(Empty(), events);
      var task := s.jobs[i].task;
      Started(s, i).jobs[i].phase ==
        if exists c: nat :: ClearOf(s, c, task.host) && task.generation < s.jobs[c].task.generation then Settled(true) else Writing
  {
    RunKeeps(Empty(), events);
    var s := End(Empty(), events);
    RunCalls(Empty(), events, s.jobs[i].task.host);
    assert JobOk(s, i);
    forall c: nat | ClearOf(s, c, s.jobs[i].task.host)
      ensures s.jobs[c].task.generation <= Generation(s, s.jobs[i].task.host)
    {
      assert JobOk(s, c);
    }
  }

  /** A load started before the last clear call of its host that has not answered with data. */
  predicate Outdated(s: State, n: nat) {
    && n < |s.loads| && s.loads[n].generation < Generation(s, s.loads[n].host)
    && s.loads[n].reading != Answered(true)
  }

  lemma {:induction false} OutdatedStays(s: State, events: seq<Event>, n: nat)
    requires Outdated(s, n) && Run(s, events)
    ensures Outdated(End(s, events), n)
    decreases |events|
  {
    if events != [] {
      assert Outdated(Apply(s, events[0]), n);
      OutdatedStays(Apply(s, events[0]), events[1..], n);
    }
  }

  /** A load in flight when a clear of its host is called never answers with data, however the rest of the run goes. */
  lemma ClearSilencesRunningLoads(before: seq<Event>, n: nat, after: seq<Event>)
    requires Run(Empty(), before)
    requires var s := End(Empty(), before); n < |s.loads| && !s.loads[n].reading.Answered? && s.loads[n].host != ""
    requires var s := End(Empty(), before); Run(ClearCalled(s, s.loads[n].host), after)
    ensures var s := End(Empty(), before);
      var t := End(ClearCalled(s, s.loads[n].host), after);
      n < |t.loads| && t.loads[n].reading != Answered(true)
  {
    RunKeeps(Empty(), before);
    var s := End(Empty(), before);
    OutdatedStays(ClearCalled(s, s.loads[n].host), after, n);
  }

  // ---- when a load answers with data ---------------------------------------------------------------

  /** The step calls a clear of the host, or a load of it that is still current finds a row it must reject. */
  predicate Clears(s: State, e: Event, h: Host)
    requires Enabled(s, e)
  {
    e == CallClear(h) || (e.ReadSnapshot? && e.content.Rejected? && s.loads[e.n].host == h && LoadIsCurrent(s, e.n))
  }

  /** Load `n` reads a usable row and then its progress; no read of it fails, and no clear of its host is called before that. */
  ghost predicate Served(s: State, events: seq<Event>, n: nat, h: Host)
    requires Run(s, events)
    decreases |events|
  {
    && events != [] && !Clears(s, events[0], h) && events[0] != LoadFails(n)
    && (if events[0].ReadProgress? && events[0].n == n then true
        else (events[0].ReadSnapshot? && events[0].n == n ==> events[0].content.Usable?)
             && Served(Apply(s, events[0]), events[1..], n, h))
  }

  /** Load `n` waits for one of its reads, and no clear of its host has been called since it was. */
  predicate InFlight(s: State, n: nat, h: Host) {
    n < |s.loads| && s.loads[n].host == h && LoadIsCurrent(s, n) && !s.loads[n].reading.Answered?
  }

  lemma {:induction false} AnswerIsFinal(s: State, events: seq<Event>, n: nat)
    requires Run(s, events) && n < |s.loads| && s.loads[n].reading.Answered?
    ensures n < |End(s, events).loads| && End(s, events).loads[n].reading == s.loads[n].reading
    decreases |events|
  {
    if events != [] { AnswerIsFinal(Apply(s, events[0]), events[1..], n); }
  }

  lemma StaysInFlight(s: State, e: Event, n: nat, h: Host)
    requires Enabled(s, e) && InFlight(s, n, h) && !Clears(s, e, h) && e != LoadFails(n) && e != ReadProgress(n)
    requires e.ReadSnapshot? && e.n == n ==> e.content.Usable?
    ensures InFlight(Apply(s, e), n, h)
  {
  }

  lemma {:induction false} ServedExactly(s: State, events: seq<Event>, n: nat, h: Host)
    requires Run(s, events) && InFlight(s, n, h) && h != ""
    ensures n < |End(s, events).loads|
    ensures End(s, events).loads[n].reading == Answered(true) <==> Served(s, events, n, h)
    decreases |events|
  {
    if events != [] {
      var e, t := events[0], Apply(s, events[0]);
      if Clears(s, e, h) {
        assert Outdated(t, n);
        OutdatedStays(t, events[1..], n);
      } else if e == LoadFails(n) || e == ReadProgress(n) || (e.ReadSnapshot? && e.n == n && !e.content.Usable?) {
        AnswerIsFinal(t, events[1..], n);
      } else {
        StaysInFlight(s, e, n, h);
        ServedExactly(t, events[1..], n, h);
      }
    }
  }

  /**
   In every run: a load answers with data if and only if it reads a usable row and then its progress, neither read
   fails, and no clear of its host is called between its call and its second read.
   */
  lemma LoadAnswersExactly(before: seq<Event>, h: Host, after: seq<Event>)
    requires Run(Empty(), before) && Run(Apply(End(Empty(), before), CallLoad(h)), after)
    ensures
      var s := End(Empty(), before);
      var called := Apply(s, CallLoad(h));
      var t := End(called, after);
      && |s.loads| < |t.loads|
      && (t.loads[|s.loads|].reading == Answered(true) <==> h != "" && Served(called, after, |s.loads|, h))
  {
    var s := End(Empty(), before);
    var called := Apply(s, CallLoad(h));
    if h == "" { AnswerIsFinal(called, after, |s.loads|); } else { ServedExactly(called, after, |s.loads|, h); }
  }

  // ---- undisturbed saves, clears and loads -----------------------------------------------------------

  predicate Idle(s: State) { forall i :: 0 <= i < |s.jobs| ==> s.jobs[i].phase.Settled? }

  lemma {:induction false} RunOn(s: State, events: seq<Event>, e: Event)
    requires Run(s, events) && Enabled(End(s, events), e)
    ensures Run(s, events + [e]) && End(s, events + [e]) == Apply(End(s, events), e)
    decreases |events|
  {
    if events == [] {
      assert [e][1..] == [];
    } else {
      assert (events + [e])[1..] == events[1..] + [e];
      RunOn(Apply(s, events[0]), events[1..], e);
    }
  }

  function WholeJob(s: State, call: Event, wrote: set<Path>, dropped: set<(Host, Path)>): seq<Event> {
    [call, Start(|s.jobs|), Commit(|s.jobs|, wrote, dropped), Finish(|s.jobs|)]
  }

  lemma JobRuns(s: State, call: Event, task: Task, wrote: set<Path>, dropped: set<(Host, Path)>)
    requires Idle(s) && Enabled(s, call) && Apply(s, call).jobs == s.jobs + [Job(task, Queued)]
    requires task.Save? ==> task.generation == Generation(Apply(s, call), task.host)
    ensures
      var events := WholeJob(s, call, wrote, dropped);
      Run(s, events) && End(s, events) ==
        At(Committed(At(Apply(s, call), |s.jobs|, Writing), |s.jobs|, wrote, dropped), |s.jobs|, Settled(true))
  {
    var n := |s.jobs|;
    RunOn(s, [], call);
    assert [] + [call] == [call];
    RunOn(s, [call], Start(n));
    RunOn(s, [call] + [Start(n)], Commit(n, wrote, dropped));
    RunOn(s, [call] + [Start(n)] + [Commit(n, wrote, dropped)], Finish(n));
    assert [call] + [Start(n)] + [Commit(n, wrote, dropped)] + [Finish(n)] == WholeJob(s, call, wrote, dropped);
  }

  /** A save of the current generation that nothing disturbs writes exactly its rows and drops exactly what it should. */
  lemma UndisturbedSave(s: State, h: Host, wrote: set<Path>, dropped: set<(Host, Path)>)
    requires Idle(s)
    ensures
      var events := WholeJob(s, CallSave(h, Generation(s, h)), wrote, dropped);
      Run(s, events)
      && var t := End(s, events);
         && Idle(t) && |t.jobs| == |s.jobs| + 1 && t.jobs[|s.jobs|].phase == Settled(true) && t.generations == s.generations
         && (forall k :: k in t.rows <==> (k in s.rows || (k.0 == h && k.1 in wrote)) && k !in dropped)
         && (forall k :: k in t.rows ==> t.rows[k] == if k.0 == h && k.1 in wrote then |s.jobs| else s.rows[k])
  {
    JobRuns(s, CallSave(h, Generation(s, h)), Save(h, Generation(s, h)), wrote, dropped);
  }

  /** A clear that nothing disturbs takes every row of its host and no other. */
  lemma UndisturbedClear(s: State, h: Host)
    requires Idle(s) && h != ""
    ensures
      var events := WholeJob(s, CallClear(h), {}, {});
      Run(s, events)
      && var t := End(s, events);
         && Idle(t) && |t.jobs| == |s.jobs| + 1 && t.jobs[|s.jobs|].phase == Settled(true)
         && (forall k :: k in t.rows <==> k in s.rows && k.0 != h)
         && (forall k :: k in t.rows ==> t.rows[k] == s.rows[k])
  {
    JobRuns(s, CallClear(h), Clear(h, Generation(s, h) + 1), {}, {});
  }

  /** A current load that finds a row it must reject answers without data, and the clear it calls takes every row of its host. */
  lemma RejectedRowIsCleared(s: State, n: nat, h: Host)
    requires Idle(s) && InFlight(s, n, h) && s.loads[n].reading.Snapshot? && h != ""
    ensures
      var events := WholeJob(s, ReadSnapshot(n, Rejected), {}, {});
      Run(s, events)
      && var t := End(s, events);
         && Idle(t) && |t.loads| == |s.loads| && t.loads[n].reading == Answered(false)
         && (forall k :: k in t.rows <==> k in s.rows && k.0 != h)
         && (forall k :: k in t.rows ==> t.rows[k] == s.rows[k])
  {
    JobRuns(s, ReadSnapshot(n, Rejected), Clear(h, Generation(s, h) + 1), {}, {});
  }

  /** The queue, the generations and the running loads of the module. */
  class CacheQueue {
    var jobs: seq<Job>                     // `saveQueue`, finished jobs included
    var generations: map<Host, nat>        // cacheGenerationByHost
    var loads: seq<Load>
    ghost var rows: map<(Host, Path), nat>

    ghost function View(): State
      reads this
    {
      State(jobs, generations, rows, loads)
    }

    ghost predicate Valid()
      reads this
    {
      Inv(View())
    }

    constructor ()
      ensures Valid() && View() == Empty()
    {
      jobs, generations, loads, rows := [], map[], [], map[];
    }

    function CurrentGeneration(h: Host): nat
      reads this
    {
      if h in generations then generations[h] else 0
    }

    method SaveSnapshot(h: Host, generation: nat) returns (i: nat)
      requires Valid() && generation <= CurrentGeneration(h)
      modifies this`jobs
      ensures View() == Apply(old(View()), CallSave(h, generation)) && i == |old(jobs)| && Valid()
    {
      KeepsStep(View(), CallSave(h, generation));
      i := |jobs|;
      jobs := jobs + [Job(Save(h, generation), Queued)];
    }

    method ClearSnapshot(h: Host)
      requires Valid()
      modifies this`jobs, this`generations
      ensures View() == Apply(old(View()), CallClear(h)) && Valid()
      ensures forall n :: 0 <= n < |loads| && loads[n].host == h != "" && !loads[n].reading.Answered? ==> Outdated(View(), n)
    {
      KeepsStep(View(), CallClear(h));
      if h == "" { return; }
      generations := generations[h := CurrentGeneration(h) + 1];
      jobs := jobs + [Job(Clear(h, CurrentGeneration(h)), Queued)];
    }

    method StartJob(i: nat)
      requires Valid() && Enabled(View(), Start(i))
      modifies this`jobs
      ensures View() == Apply(old(View()), Start(i)) && Valid()
    {
      KeepsStep(View(), Start(i));
      var task := jobs[i].task;
      if task.Save? && task.generation != CurrentGeneration(task.host) {
        jobs := jobs[i := jobs[i].(phase := Settled(true))];
      } else {
        jobs := jobs[i := jobs[i].(phase := Writing)];
      }
    }

    method LoadSnapshot(h: Host) returns (n: nat)
      requires Valid()
      modifies this`loads
      ensures View() == Apply(old(View()), CallLoad(h)) && n == |old(loads)| && Valid()
    {
      KeepsStep(View(), CallLoad(h));
      n := |loads|;
      loads := loads + [Load(h, CurrentGeneration(h), if h == "" then Answered(false) else Snapshot)];
    }

    method AfterSnapshotRead(n: nat, content: Content)
      requires Valid() && Enabled(View(), ReadSnapshot(n, content))
      modifies this`jobs, this`generations, this`loads
      ensures View() == Apply(old(View()), ReadSnapshot(n, content)) && Valid()
    {
      KeepsStep(View(), ReadSnapshot(n, content));
      var load := loads[n];
      if load.generation != CurrentGeneration(load.host) || content.Missing? {
        loads := loads[n := load.(reading := Answered(false))];
      } else if content.Rejected? {
        ClearSnapshot(load.host);
        loads := loads[n := load.(reading := Answered(false))];
      } else {
        loads := loads[n := load.(reading := Progress)];
      }
    }

    method AfterProgressRead(n: nat)
      requires Valid() && Enabled(View(), ReadProgress(n))
      modifies this`loads
      ensures View() == Apply(old(View()), ReadProgress(n)) && Valid()
    {
      KeepsStep(View(), ReadProgress(n));
      loads := loads[n := loads[n].(reading := Answered(loads[n].generation == CurrentGeneration(loads[n].host)))];
    }
  }
}
