/**
 The outbox of playback progress (syncPlaybackProgress and reconcileProfileProgress in apps/mobile/App.tsx, the
 pending-progress functions of apps/mobile/mobileOfflineCache.ts).  Writes, payload-compared deletes and host wipes
 go through one queue; network requests and re-reads interleave with it freely.
 */
module Outbox {
  import opened Options

  datatype Key = Key(host: string, profile: string, media: string)

  datatype Progress = Progress(position: int, duration: int, watched: bool, updatedAt: int)

  datatype Entry = Entry(path: string, progress: Progress)

  datatype Task = Put(key: Key, entry: Entry) | Drop(key: Key, progress: Progress) | Wipe(host: string)

  datatype Status = Queued | Settled(ok: bool)

  datatype Job = Job(task: Task, status: Status)

  /** One update on its way to the server: from playback itself, or replayed from the table. */
  datatype Stage =
    | Storing(put: nat)
    | Rereading
    | Requesting
    | Answered
    | Dropping(drop: nat)
    | Done

  datatype Caller = Caller(key: Key, progress: Progress, stage: Stage)

  datatype State = State(table: map<Key, Entry>, jobs: seq<Job>, callers: seq<Caller>, acknowledged: set<(Key, Progress)>)

  function Empty(): State { State(map[], [], [], {}) }

  function Queue(s: State, task: Task): State { s.(jobs := s.jobs + [Job(task, Queued)]) }

  function Start(s: State, key: Key, progress: Progress, stage: Stage): State {
    s.(callers := s.callers + [Caller(key, progress, stage)])
  }

  function At(s: State, c: nat, stage: Stage): State
    requires c < |s.callers|
  {
    s.(callers := s.callers[c := s.callers[c].(stage := stage)])
  }

  /** One database statement. */
  function Executed(table: map<Key, Entry>, task: Task): map<Key, Entry> {
    match task
    case Put(key, entry) => table[key := entry]
    case Drop(key, progress) => if key in table && table[key].progress == progress then table - {key} else table
    case Wipe(host) => map k | k in table && k.host != host :: table[k]
  }

  function JobRan(s: State, i: nat, ok: bool): State
    requires i < |s.jobs|
  {
    s.(table := if ok then Executed(s.table, s.jobs[i].task) else s.table, jobs := s.jobs[i := s.jobs[i].(status := Settled(ok))])
  }

  /** The server's answer; only a stored answer acknowledges. */
  function Responded(s: State, c: nat, ok: bool): State
    requires c < |s.callers|
  {
    At(s.(acknowledged := s.acknowledged + if ok then {(s.callers[c].key, s.callers[c].progress)} else {}), c,
       if ok then Answered else Done)
  }

  function Continued(s: State, c: nat, current: bool): State
    requires c < |s.callers|
  {
    At(s.(jobs := s.jobs + if current then [Job(Drop(s.callers[c].key, s.callers[c].progress), Queued)] else []), c,
       if current then Dropping(|s.jobs|) else Done)
  }

  function Restarted(s: State): State {
    s.(jobs := seq(|s.jobs|, i requires 0 <= i < |s.jobs| =>
         if s.jobs[i].status.Queued? then s.jobs[i].(status := Settled(false)) else s.jobs[i]), callers := [])
  }

  /** `current` is the session guard after each await. */
  datatype Event =
    | CallSync(key: Key, entry: Entry)
    | CallReplay(key: Key, progress: Progress)
    | CallWipe(host: string)
    | RunJob(i: nat, ok: bool)
    | Stored(c: nat, current: bool)
    | Reread(c: nat, current: bool)
    | Respond(c: nat, ok: bool)
    | Continue(c: nat, current: bool)
    | Dropped(c: nat)
    | Restart                                       // only the table and the server survive

  predicate Enabled(s: State, e: Event) {
    match e
    case CallSync(_, _) => true
    case CallReplay(_, _) => true
    case CallWipe(_) => true
    case RunJob(i, _) => i < |s.jobs| && s.jobs[i].status.Queued? && forall j :: 0 <= j < i ==> s.jobs[j].status.Settled?
    case Stored(c, _) => c < |s.callers| && s.callers[c].stage.Storing? && Ran(s, s.callers[c].stage.put)
    case Reread(c, _) => c < |s.callers| && s.callers[c].stage.Rereading?
    case Respond(c, _) => c < |s.callers| && s.callers[c].stage.Requesting?
    case Continue(c, _) => c < |s.callers| && s.callers[c].stage.Answered?
    case Dropped(c) => c < |s.callers| && s.callers[c].stage.Dropping? && Ran(s, s.callers[c].stage.drop)
    case Restart => true
  }

  predicate Ran(s: State, i: nat) { i < |s.jobs| && s.jobs[i].status.Settled? }

  function Apply(s: State, e: Event): State
    requires Enabled(s, e)
  {
    match e
    case CallSync(key, entry) => Start(Queue(s, Put(key, entry)), key, entry.progress, Storing(|s.jobs|))
    case CallReplay(key, progress) => Start(s, key, progress, Rereading)
    case CallWipe(host) => Queue(s, Wipe(host))
    case RunJob(i, ok) => JobRan(s, i, ok)
    case Stored(c, current) => At(s, c, if s.jobs[s.callers[c].stage.put].status.ok && current then Requesting else Done)
    case Reread(c, current) => At(s, c, if current && IsStored(s, s.callers[c].key, s.callers[c].progress) then Requesting else Done)
    case Respond(c, ok) => Responded(s, c, ok)
    case Continue(c, current) => Continued(s, c, current)
    case Dropped(c) => At(s, c, Done)
    case Restart => Restarted(s)
  }

  predicate IsStored(s: State, key: Key, progress: Progress) { key in s.table && s.table[key].progress == progress }

  // ---- nothing is lost -----------------------------------------------------------------------

  predicate Committed(s: State, i: nat) { i < |s.jobs| && s.jobs[i].status == Settled(true) }

  predicate CommittedPut(s: State, i: nat, key: Key) { Committed(s, i) && s.jobs[i].task.Put? && s.jobs[i].task.key == key }

  ghost predicate LastPut(s: State, i: nat, key: Key) { CommittedPut(s, i, key) && forall j: nat :: CommittedPut(s, j, key) ==> j <= i }

  predicate WipeAfter(s: State, w: nat, i: nat, host: string) { i < w && Committed(s, w) && s.jobs[w].task == Wipe(host) }

  /** The update of put `i` is stored as it was, or acknowledged, or its host was wiped since. */
  ghost predicate Safe(s: State, i: nat, key: Key)
    requires CommittedPut(s, i, key)
  {
    || (key in s.table && s.table[key] == s.jobs[i].task.entry)
    || (key, s.jobs[i].task.entry.progress) in s.acknowledged
    || exists w: nat :: WipeAfter(s, w, i, key.host)
  }

  /** Deletes are queued for acknowledged updates only. */
  ghost predicate Inv(s: State) {
    && (forall i, j :: 0 <= i < j < |s.jobs| && s.jobs[j].status.Settled? ==> s.jobs[i].status.Settled?)
    && (forall i :: 0 <= i < |s.jobs| && s.jobs[i].task.Drop? ==> (s.jobs[i].task.key, s.jobs[i].task.progress) in s.acknowledged)
    && (forall c :: 0 <= c < |s.callers| && s.callers[c].stage.Answered? ==> (s.callers[c].key, s.callers[c].progress) in s.acknowledged)
    && (forall i: nat, key :: LastPut(s, i, key) ==> Safe(s, i, key))
    && (forall key :: key in s.table ==> exists i: nat :: LastPut(s, i, key) && s.jobs[i].task.entry == s.table[key])
  }

  /** A step that runs no job. */
  lemma KeepsPuts(s: State, t: State)
    requires Inv(s) && t.table == s.table && s.acknowledged <= t.acknowledged && |s.jobs| <= |t.jobs|
    requires forall i :: 0 <= i < |s.jobs| ==>
      t.jobs[i].task == s.jobs[i].task && (s.jobs[i].status == Settled(true) <==> t.jobs[i].status == Settled(true))
    requires forall i :: |s.jobs| <= i < |t.jobs| ==> t.jobs[i].status.Queued?
    ensures forall i: nat, key :: LastPut(t, i, key) ==> Safe(t, i, key)
    ensures forall key :: key in t.table ==> exists i: nat :: LastPut(t, i, key) && t.jobs[i].task.entry == t.table[key]
  {
    assert forall i: nat, key :: CommittedPut(t, i, key) <==> CommittedPut(s, i, key);
    assert forall i: nat, key :: LastPut(t, i, key) <==> LastPut(s, i, key);
    forall i: nat, key | LastPut(t, i, key)
      ensures Safe(t, i, key)
    {
      assert Safe(s, i, key);
      if exists w: nat :: WipeAfter(s, w, i, key.host) {
        var w: nat :| WipeAfter(s, w, i, key.host);
        assert WipeAfter(t, w, i, key.host);
      }
    }
  }

  /** The job that runs is later than every committed one. */
  lemma RanLast(s: State, i: nat, ok: bool, j: nat)
    requires Inv(s) && Enabled(s, RunJob(i, ok)) && j < |s.jobs| && s.jobs[j].status.Settled?
    ensures j < i
  {
  }

  lemma SafeAfterJob(s: State, i: nat, ok: bool, p: nat, key: Key)
    requires Inv(s) && Enabled(s, RunJob(i, ok)) && LastPut(JobRan(s, i, ok), p, key)
    ensures Safe(JobRan(s, i, ok), p, key)
  {
    var t := JobRan(s, i, ok);
    if p != i {
      assert CommittedPut(s, p, key);
      assert forall j: nat :: CommittedPut(s, j, key) ==> CommittedPut(t, j, key);
      assert LastPut(s, p, key) && Safe(s, p, key);
      assert forall w: nat :: WipeAfter(s, w, p, key.host) ==> WipeAfter(t, w, p, key.host);
      assert ok && s.jobs[i].task.Put? ==> !CommittedPut(t, i, key) by { RanLast(s, i, ok, p); }
      if ok && s.jobs[i].task == Wipe(key.host) {
        RanLast(s, i, ok, p);
        assert WipeAfter(t, i, p, key.host);
      }
    }
  }

  lemma TableAfterJob(s: State, i: nat, ok: bool, key: Key)
    requires Inv(s) && Enabled(s, RunJob(i, ok)) && key in JobRan(s, i, ok).table
    ensures var t := JobRan(s, i, ok); exists p: nat :: LastPut(t, p, key) && t.jobs[p].task.entry == t.table[key]
  {
    var t := JobRan(s, i, ok);
    if ok && s.jobs[i].task.Put? && s.jobs[i].task.key == key {
      forall j: nat | CommittedPut(t, j, key) ensures j <= i { if j != i { RanLast(s, i, ok, j); } }
      assert LastPut(t, i, key);
    } else {
      var p: nat :| LastPut(s, p, key) && s.jobs[p].task.entry == s.table[key];
      assert CommittedPut(t, p, key);
      assert forall j: nat :: CommittedPut(t, j, key) ==> CommittedPut(s, j, key);
      assert LastPut(t, p, key);
    }
  }

  lemma KeepsJob(s: State, i: nat, ok: bool)
    requires Inv(s) && Enabled(s, RunJob(i, ok))
    ensures Inv(JobRan(s, i, ok))
  {
    var t := JobRan(s, i, ok);
    forall p: nat, key | LastPut(t, p, key) ensures Safe(t, p, key) { SafeAfterJob(s, i, ok, p, key); }
    forall key | key in t.table
      ensures exists p: nat :: LastPut(t, p, key) && t.jobs[p].task.entry == t.table[key]
    {
      TableAfterJob(s, i, ok, key);
    }
  }

  lemma OutsideShape(s: State, e: Event)
    requires Enabled(s, e) && !e.RunJob?
    ensures var t := Apply(s, e);
      && t.table == s.table && s.acknowledged <= t.acknowledged && |s.jobs| <= |t.jobs|
      && (forall i :: 0 <= i < |s.jobs| ==>
            && t.jobs[i].task == s.jobs[i].task && (s.jobs[i].status == Settled(true) <==> t.jobs[i].status == Settled(true))
            && (s.jobs[i].status.Settled? ==> t.jobs[i].status.Settled?))
      && (forall i :: |s.jobs| <= i < |t.jobs| ==> t.jobs[i].status.Queued?)
  {
  }

  /** Steps outside the queue keep its order, and every queued delete is of an acknowledged update. */
  lemma KeepsOutside(s: State, e: Event)
    requires Inv(s) && Enabled(s, e) && !e.RunJob?
    ensures var t := Apply(s, e);
      && (forall i, j :: 0 <= i < j < |t.jobs| && t.jobs[j].status.Settled? ==> t.jobs[i].status.Settled?)
      && (forall i :: 0 <= i < |t.jobs| && t.jobs[i].task.Drop? ==> (t.jobs[i].task.key, t.jobs[i].task.progress) in t.acknowledged)
      && (forall c :: 0 <= c < |t.callers| && t.callers[c].stage.Answered? ==> (t.callers[c].key, t.callers[c].progress) in t.acknowledged)
  {
  }

  lemma KeepsStep(s: State, e: Event)
    requires Inv(s) && Enabled(s, e)
    ensures Inv(Apply(s, e))
  {
    if e.RunJob? {
      KeepsJob(s, e.i, e.ok);
    } else {
      OutsideShape(s, e);
      KeepsOutside(s, e);
      KeepsPuts(s, Apply(s, e));
    }
  }

  ghost predicate Run(s: State, events: seq<Event>)
    decreases |events|
  {
    events == [] || (Enabled(s, events[0]) && Run(Apply(s, events[0]), events[1..]))
  }

  ghost function End(s: State, events: seq<Event>): State
    requires Run(s, events)
    decreases |events|
  {
    if events == [] then s else End(Apply(s, events[0]), events[1..])
  }

  lemma {:induction false} RunKeeps(s: State, events: seq<Event>)
    requires Inv(s) && Run(s, events)
    ensures Inv(End(s, events))
    decreases |events|
  {
    if events != [] {
      KeepsStep(s, events[0]);
      RunKeeps(Apply(s, events[0]), events[1..]);
    }
  }

  /**
   In every run, the last update written for a host, profile and media is still in the table exactly as written, or
   the server acknowledged exactly that progress, or a wipe of the host ran after it.
   */
  lemma NoUpdateIsLost(events: seq<Event>, i: nat, key: Key)
    requires Run(Empty(), events) && LastPut(End(Empty(), events), i, key)
    ensures var s := End(Empty(), events);
      || (key in s.table && s.table[key] == s.jobs[i].task.entry)
      || (key, s.jobs[i].task.entry.progress) in s.acknowledged
      || exists w: nat :: WipeAfter(s, w, i, key.host)
  {
    RunKeeps(Empty(), events);
    assert Safe(End(Empty(), events), i, key);
  }

  // ---- what the table holds, exactly --------------------------------------------------------------

  /** A delete of exactly that update, or a wipe of the host, ran after put `i`. */
  ghost predicate TakenAfter(s: State, i: nat, key: Key)
    requires CommittedPut(s, i, key)
  {
    exists w: nat :: Takes(s, w, i, key)
  }

  predicate Takes(s: State, w: nat, i: nat, key: Key)
    requires CommittedPut(s, i, key)
  {
    i < w && Committed(s, w) && (s.jobs[w].task == Wipe(key.host) || s.jobs[w].task == Drop(key, s.jobs[i].task.entry.progress))
  }

  ghost predicate Exact(s: State) {
    forall i: nat, key :: LastPut(s, i, key) ==> (key in s.table <==> !TakenAfter(s, i, key))
  }

  lemma NothingTakesTheNewest(s: State, i: nat, ok: bool, key: Key)
    requires Inv(s) && Enabled(s, RunJob(i, ok)) && CommittedPut(JobRan(s, i, ok), i, key)
    ensures key in JobRan(s, i, ok).table && !TakenAfter(JobRan(s, i, ok), i, key)
  {
    var t := JobRan(s, i, ok);
    forall w: nat | Takes(t, w, i, key) ensures false { RanLast(s, i, ok, w); }
  }

  /** What the job that runs does to an earlier update. */
  lemma EarlierIsTaken(s: State, i: nat, ok: bool, p: nat, key: Key)
    requires Enabled(s, RunJob(i, ok)) && p < i && CommittedPut(s, p, key) && !CommittedPut(JobRan(s, i, ok), i, key)
    requires key in s.table ==> s.table[key] == s.jobs[p].task.entry
    ensures var t := JobRan(s, i, ok); key in t.table <==> key in s.table && !Takes(t, i, p, key)
  {
  }

  lemma ExactAfterJob(s: State, i: nat, ok: bool, p: nat, key: Key)
    requires Inv(s) && Exact(s) && Enabled(s, RunJob(i, ok)) && LastPut(JobRan(s, i, ok), p, key)
    ensures var t := JobRan(s, i, ok); key in t.table <==> !TakenAfter(t, p, key)
  {
    var t := JobRan(s, i, ok);
    if p == i {
      NothingTakesTheNewest(s, i, ok, key);
    } else {
      assert CommittedPut(s, p, key);
      RanLast(s, i, ok, p);
      assert forall j: nat :: CommittedPut(s, j, key) ==> CommittedPut(t, j, key);
      assert LastPut(s, p, key) && !CommittedPut(t, i, key);
      EarlierIsTaken(s, i, ok, p, key);
      assert forall w: nat :: Takes(t, w, p, key) <==> (w == i && Takes(t, i, p, key)) || Takes(s, w, p, key);
    }
  }

  lemma ExactOutside(s: State, e: Event)
    requires Exact(s) && Enabled(s, e) && !e.RunJob?
    ensures Exact(Apply(s, e))
  {
    var t := Apply(s, e);
    OutsideShape(s, e);
    assert forall i: nat, key :: CommittedPut(t, i, key) <==> CommittedPut(s, i, key);
    forall i: nat, key | LastPut(t, i, key)
      ensures key in t.table <==> !TakenAfter(t, i, key)
    {
      assert LastPut(s, i, key);
      assert forall w: nat :: Takes(t, w, i, key) <==> Takes(s, w, i, key);
    }
  }

  lemma {:induction false} RunKeepsExact(s: State, events: seq<Event>)
    requires Inv(s) && Exact(s) && Run(s, events)
    ensures Exact(End(s, events))
    decreases |events|
  {
    if events != [] {
      var e := events[0];
      KeepsStep(s, e);
      if e.RunJob? {
        forall p: nat, key | LastPut(Apply(s, e), p, key)
          ensures key in Apply(s, e).table <==> !TakenAfter(Apply(s, e), p, key)
        {
          ExactAfterJob(s, e.i, e.ok, p, key);
        }
      } else {
        ExactOutside(s, e);
      }
      RunKeepsExact(Apply(s, e), events[1..]);
    }
  }

  /**
   In every run a key is in the table if and only if it has a last committed update after which neither a wipe of its
   host nor a delete of exactly its progress was committed; and then the table holds that update.
   */
  lemma TableHoldsExactly(events: seq<Event>, key: Key)
    requires Run(Empty(), events)
    ensures var s := End(Empty(), events);
      && (key in s.table <==> exists i: nat :: LastPut(s, i, key) && !TakenAfter(s, i, key))
      && (forall i: nat :: key in s.table && LastPut(s, i, key) ==> s.table[key] == s.jobs[i].task.entry)
  {
    RunKeeps(Empty(), events);
    RunKeepsExact(Empty(), events);
    var s := End(Empty(), events);
    if key in s.table {
      var i: nat :| LastPut(s, i, key) && s.jobs[i].task.entry == s.table[key];
      assert !TakenAfter(s, i, key);
    }
  }

  // ---- what the server has, exactly ---------------------------------------------------------------

  /** At some step the server stored this progress of the key. */
  ghost predicate EverStored(s: State, events: seq<Event>, key: Key, progress: Progress)
    requires Run(s, events)
    decreases |events|
  {
    && events != []
    && ((events[0].Respond? && events[0].ok && s.callers[events[0].c].key == key && s.callers[events[0].c].progress == progress)
        || EverStored(Apply(s, events[0]), events[1..], key, progress))
  }

  lemma {:induction false} AcknowledgedExactly(s: State, events: seq<Event>, key: Key, progress: Progress)
    requires Run(s, events)
    ensures (key, progress) in End(s, events).acknowledged <==>
      (key, progress) in s.acknowledged || EverStored(s, events, key, progress)
    decreases |events|
  {
    if events != [] { AcknowledgedExactly(Apply(s, events[0]), events[1..], key, progress); }
  }

  /** The write failed, the server did not store the update, or the session is over. */
  predicate Ends(s: State, e: Event, c: nat)
    requires Enabled(s, e)
  {
    match e
    case Stored(d, current) => c == d && !(current && s.jobs[s.callers[c].stage.put].status.ok)
    case Reread(d, current) => c == d && !(current && IsStored(s, s.callers[c].key, s.callers[c].progress))
    case Respond(d, ok) => c == d && !ok
    case Continue(d, current) => c == d && !current
    case Dropped(d) => c == d
    case _ => false
  }

  lemma {:induction false} DoneStaysSilent(s: State, c: nat, events: seq<Event>)
    requires Run(s, events) && c < |s.callers| && s.callers[c].stage.Done? && Restart !in events
    ensures forall e :: e in events ==> Moved(e) != Some(c)
    decreases |events|
  {
    if events != [] { DoneStaysSilent(Apply(s, events[0]), c, events[1..]); }
  }

  /** A caller that was ended sends nothing, queues no delete and is answered no more. */
  lemma EndedCallerIsSilent(s: State, e: Event, c: nat, events: seq<Event>)
    requires Enabled(s, e) && Ends(s, e, c) && Run(Apply(s, e), events) && Restart !in events
    ensures forall e' :: e' in events ==> Moved(e') != Some(c)
  {
    DoneStaysSilent(Apply(s, e), c, events);
  }

  // ---- an undisturbed update reaches the server and leaves the table ---------------------------------

  lemma {:induction false} RunOn(s: State, events: seq<Event>, e: Event)
    requires Run(s, events) && Enabled(End(s, events), e)
    ensures Run(s, events + [e]) && End(s, events + [e]) == Apply(End(s, events), e)
    decreases |events|
  {
    if events == [] {
      assert [e][1..] == [];
    } else {
      assert (events + [e])[1..] == events[1..] + [e];
      RunOn(Apply(s, events[0]), events[1..], e);
    }
  }

  /** The queue has nothing to do. */
  predicate Idle(s: State) { forall i :: 0 <= i < |s.jobs| ==> s.jobs[i].status.Settled? }

  /** Everything from the request to the delete of the update. */
  function Sending(c: nat, drop: nat): seq<Event> { [Respond(c, true), Continue(c, true), RunJob(drop, true), Dropped(c)] }

  /** The state once the delete of the caller's update is queued. */
  function ToDrop(s: State, c: nat): State
    requires c < |s.callers|
  {
    var caller := s.callers[c];
    At(s.(acknowledged := s.acknowledged + {(caller.key, caller.progress)}, jobs := s.jobs + [Job(Drop(caller.key, caller.progress), Queued)]),
       c, Dropping(|s.jobs|))
  }

  lemma AnswerRuns(from: State, events: seq<Event>, c: nat)
    requires Run(from, events) && c < |End(from, events).callers| && End(from, events).callers[c].stage.Requesting?
    ensures Run(from, events + [Respond(c, true)] + [Continue(c, true)])
    ensures End(from, events + [Respond(c, true)] + [Continue(c, true)]) == ToDrop(End(from, events), c)
  {
    RunOn(from, events, Respond(c, true));
    RunOn(from, events + [Respond(c, true)], Continue(c, true));
  }

  lemma DropRuns(from: State, events: seq<Event>, c: nat, n: nat)
    requires Run(from, events)
    requires var s := End(from, events);
      && |s.jobs| == n + 1 && s.jobs[n].status.Queued? && (forall i :: 0 <= i < n ==> s.jobs[i].status.Settled?)
      && c < |s.callers| && s.callers[c].stage == Dropping(n)
    ensures
      var s := End(from, events);
      Run(from, events + [RunJob(n, true)] + [Dropped(c)])
      && End(from, events + [RunJob(n, true)] + [Dropped(c)]) == At(JobRan(s, n, true), c, Done)
  {
    RunOn(from, events, RunJob(n, true));
    RunOn(from, events + [RunJob(n, true)], Dropped(c));
  }

  /** The caller's update is sent and stored, its own delete runs, and the rest of the table stays. */
  lemma SendingRuns(from: State, events: seq<Event>, c: nat)
    requires Run(from, events)
    requires var s := End(from, events); Idle(s) && c < |s.callers| && s.callers[c].stage.Requesting?
    ensures
      var s := End(from, events);
      Run(from, events + Sending(c, |s.jobs|)) && SentBy(s, End(from, events + Sending(c, |s.jobs|)), c)
  {
    var s := End(from, events);
    var n := |s.jobs|;
    AnswerRuns(from, events, c);
    DropRuns(from, events + [Respond(c, true)] + [Continue(c, true)], c, n);
    SentShape(s, c);
    assert events + [Respond(c, true)] + [Continue(c, true)] + [RunJob(n, true)] + [Dropped(c)] == events + Sending(c, n);
  }

  lemma SentShape(s: State, c: nat)
    requires Idle(s) && c < |s.callers|
    ensures SentBy(s, At(JobRan(ToDrop(s, c), |s.jobs|, true), c, Done), c)
  {
  }

  /** The caller's update is acknowledged and no longer stored; nothing else in the table has changed. */
  predicate SentBy(s: State, t: State, c: nat)
    requires c < |s.callers|
  {
    var key, progress := s.callers[c].key, s.callers[c].progress;
    && t.table == (if IsStored(s, key, progress) then s.table - {key} else s.table)
    && t.acknowledged == s.acknowledged + {(key, progress)}
    && Idle(t) && t.callers == s.callers[c := Caller(key, progress, Done)]
  }

  function WholeSync(s: State, key: Key, entry: Entry): seq<Event> {
    [CallSync(key, entry), RunJob(|s.jobs|, true), Stored(|s.callers|, true)] + Sending(|s.callers|, |s.jobs| + 1)
  }

  /** From any state with an idle queue: an update that nothing disturbs is on the server and its row is gone. */
  lemma UndisturbedSync(s: State, key: Key, entry: Entry)
    requires Idle(s)
    ensures
      Run(s, WholeSync(s, key, entry))
      && var t := End(s, WholeSync(s, key, entry));
         && t.table == s.table - {key} && t.acknowledged == s.acknowledged + {(key, entry.progress)}
         && t.callers == s.callers + [Caller(key, entry.progress, Done)]
  {
    var call, put, stored := CallSync(key, entry), RunJob(|s.jobs|, true), Stored(|s.callers|, true);
    RunOn(s, [], call);
    assert [] + [call] == [call];
    RunOn(s, [call], put);
    RunOn(s, [call] + [put], stored);
    SendingRuns(s, [call] + [put] + [stored], |s.callers|);
    assert [call] + [put] + [stored] + Sending(|s.callers|, |s.jobs| + 1) == WholeSync(s, key, entry);
  }

  function WholeReplay(s: State, key: Key, progress: Progress): seq<Event> {
    [CallReplay(key, progress), Reread(|s.callers|, true)] + Sending(|s.callers|, |s.jobs|)
  }

  /** The same for a stored update that is replayed. */
  lemma UndisturbedReplay(s: State, key: Key, progress: Progress)
    requires Idle(s) && IsStored(s, key, progress)
    ensures
      Run(s, WholeReplay(s, key, progress))
      && var t := End(s, WholeReplay(s, key, progress));
         && t.table == s.table - {key} && t.acknowledged == s.acknowledged + {(key, progress)}
         && t.callers == s.callers + [Caller(key, progress, Done)]
  {
    var call, reread := CallReplay(key, progress), Reread(|s.callers|, true);
    RunOn(s, [], call);
    assert [] + [call] == [call];
    RunOn(s, [call], reread);
    SendingRuns(s, [call] + [reread], |s.callers|);
    assert [call] + [reread] + Sending(|s.callers|, |s.jobs|) == WholeReplay(s, key, progress);
  }

  // ---- the last update queued ---------------------------------------------------------------------

  /** The update was written to the table at some time. */
  ghost predicate WasPut(s: State, key: Key, progress: Progress) {
    exists i: nat :: CommittedPut(s, i, key) && s.jobs[i].task.entry.progress == progress
  }

  ghost predicate CallerOk(s: State, c: Caller) {
    match c.stage
    case Storing(put) => put < |s.jobs| && s.jobs[put].task.Put? && s.jobs[put].task.key == c.key && s.jobs[put].task.entry.progress == c.progress
    case Rereading => true
    case Done => true
    case _ => WasPut(s, c.key, c.progress)
  }

  /** Nothing is sent or acknowledged that was not written first. */
  ghost predicate Sourced(s: State) {
    && (forall key, progress :: (key, progress) in s.acknowledged ==> WasPut(s, key, progress))
    && (forall c :: 0 <= c < |s.callers| ==> CallerOk(s, s.callers[c]))
  }

  ghost predicate SamePuts(s: State, t: State) {
    && |s.jobs| <= |t.jobs|
    && forall i :: 0 <= i < |s.jobs| ==> t.jobs[i].task == s.jobs[i].task && (s.jobs[i].status == Settled(true) ==> t.jobs[i].status == Settled(true))
  }

  lemma WasPutStays(s: State, t: State, key: Key, progress: Progress)
    requires SamePuts(s, t) && WasPut(s, key, progress)
    ensures WasPut(t, key, progress)
  {
    var i: nat :| CommittedPut(s, i, key) && s.jobs[i].task.entry.progress == progress;
    assert CommittedPut(t, i, key);
  }

  lemma CallerStays(s: State, t: State, c: Caller)
    requires SamePuts(s, t) && CallerOk(s, c)
    ensures CallerOk(t, c)
  {
    if WasPut(s, c.key, c.progress) { WasPutStays(s, t, c.key, c.progress); }
  }

  lemma StepSamePuts(s: State, e: Event)
    requires Enabled(s, e)
    ensures SamePuts(s, Apply(s, e))
  {
  }

  /** The caller a step moves on. */
  function Moved(e: Event): Option<nat> {
    match e
    case Stored(c, _) => Some(c)
    case Reread(c, _) => Some(c)
    case Respond(c, _) => Some(c)
    case Continue(c, _) => Some(c)
    case Dropped(c) => Some(c)
    case _ => None
  }

  lemma MovedCallerOk(s: State, e: Event)
    requires Inv(s) && Sourced(s) && Enabled(s, e) && Moved(e).Some?
    ensures CallerOk(Apply(s, e), Apply(s, e).callers[Moved(e).value])
  {
    var c, t := Moved(e).value, Apply(s, e);
    var caller := s.callers[c];
    StepSamePuts(s, e);
    assert CallerOk(s, caller);
    if e.Stored? && s.jobs[caller.stage.put].status.ok { assert CommittedPut(t, caller.stage.put, caller.key); }
    if e.Reread? && IsStored(s, caller.key, caller.progress) {
      var p: nat :| LastPut(s, p, caller.key) && s.jobs[p].task.entry == s.table[caller.key];
      assert CommittedPut(t, p, caller.key);
    }
    if WasPut(s, caller.key, caller.progress) { WasPutStays(s, t, caller.key, caller.progress); }
  }

  lemma OtherCallersOk(s: State, e: Event, c: nat)
    requires Sourced(s) && Enabled(s, e) && Moved(e) != Some(c) && c < |Apply(s, e).callers|
    ensures CallerOk(Apply(s, e), Apply(s, e).callers[c])
  {
    StepSamePuts(s, e);
    if c < |s.callers| { CallerStays(s, Apply(s, e), s.callers[c]); }
  }

  lemma AcknowledgedStays(s: State, e: Event)
    requires Sourced(s) && Enabled(s, e)
    ensures forall key, progress :: (key, progress) in Apply(s, e).acknowledged ==> WasPut(Apply(s, e), key, progress)
  {
    StepSamePuts(s, e);
    forall key, progress | (key, progress) in Apply(s, e).acknowledged
      ensures WasPut(Apply(s, e), key, progress)
    {
      if e.Respond? { assert CallerOk(s, s.callers[e.c]); }
      WasPutStays(s, Apply(s, e), key, progress);
    }
  }

  lemma KeepsSourced(s: State, e: Event)
    requires Inv(s) && Sourced(s) && Enabled(s, e)
    ensures Sourced(Apply(s, e))
  {
    AcknowledgedStays(s, e);
    forall c | 0 <= c < |Apply(s, e).callers| ensures CallerOk(Apply(s, e), Apply(s, e).callers[c]) {
      if Moved(e) == Some(c) { MovedCallerOk(s, e); } else { OtherCallersOk(s, e, c); }
    }
  }

  lemma {:induction false} RunKeepsSourced(s: State, events: seq<Event>)
    requires Inv(s) && Sourced(s) && Run(s, events)
    ensures Sourced(End(s, events))
    decreases |events|
  {
    if events != [] {
      KeepsSourced(s, events[0]);
      KeepsStep(s, events[0]);
      RunKeepsSourced(Apply(s, events[0]), events[1..]);
    }
  }

  ghost predicate LastQueued(s: State, i: nat, key: Key) {
    && i < |s.jobs| && s.jobs[i].task.Put? && s.jobs[i].task.key == key
    && forall j :: i < j < |s.jobs| ==> !(s.jobs[j].task.Put? && s.jobs[j].task.key == key)
  }

  /** No other update of the key has the same progress. */
  ghost predicate OnlyOne(s: State, i: nat, key: Key)
    requires i < |s.jobs| && s.jobs[i].task.Put?
  {
    forall j :: 0 <= j < |s.jobs| && j != i && s.jobs[j].task.Put? && s.jobs[j].task.key == key ==>
      s.jobs[j].task.entry.progress != s.jobs[i].task.entry.progress
  }

  /**
   The last update queued for a key, its host not wiped since: it is in the table or acknowledged if and only if its
   write to the table succeeded.
   */
  lemma LastQueuedIsSafeExactly(events: seq<Event>, i: nat, key: Key)
    requires Run(Empty(), events)
    requires LastQueued(End(Empty(), events), i, key) && OnlyOne(End(Empty(), events), i, key)
    requires forall w: nat :: !WipeAfter(End(Empty(), events), w, i, key.host)
    ensures var s := End(Empty(), events);
      ((key in s.table && s.table[key] == s.jobs[i].task.entry) || (key, s.jobs[i].task.entry.progress) in s.acknowledged)
      <==> s.jobs[i].status == Settled(true)
  {
    var s := End(Empty(), events);
    RunKeeps(Empty(), events);
    RunKeepsSourced(Empty(), events);
    if s.jobs[i].status == Settled(true) {
      assert LastPut(s, i, key);
      NoUpdateIsLost(events, i, key);
    }
  }

  /** Neither stored nor acknowledged, and no one sends it any more. */
  ghost predicate Lost(s: State, key: Key, entry: Entry) {
    key !in s.table && (key, entry.progress) !in s.acknowledged && s.callers == [Caller(key, entry.progress, Done)]
  }

  function FailedWrite(key: Key, entry: Entry): seq<Event> { [CallSync(key, entry), RunJob(0, false), Stored(0, true)] }

  /** An update whose write to the table fails is gone, although it is the last one queued. */
  lemma FailedWriteLosesTheUpdate(key: Key, entry: Entry)
    ensures Run(Empty(), FailedWrite(key, entry))
    ensures LastQueued(End(Empty(), FailedWrite(key, entry)), 0, key) && Lost(End(Empty(), FailedWrite(key, entry)), key, entry)
  {
    var events := FailedWrite(key, entry);
    var s1 := Apply(Empty(), events[0]);
    var s2 := JobRan(s1, 0, false);
    assert events[1..] == [RunJob(0, false), Stored(0, true)] && events[1..][1..] == [Stored(0, true)] && [Stored(0, true)][1..] == [];
    assert Run(At(s2, 0, Done), []) && End(At(s2, 0, Done), []) == At(s2, 0, Done);
    assert Run(s2, [Stored(0, true)]) && End(s2, [Stored(0, true)]) == At(s2, 0, Done);
    assert Run(s1, events[1..]) && End(s1, events[1..]) == At(s2, 0, Done);
  }

  // ---- replaying the outbox ---------------------------------------------------------------------

  /** What happened around one entry: the guard before it, the save, the guard after it. */
  datatype Answer = Answer(before: bool, failed: bool, after: bool, stored: Option<Progress>)

  function Overlay(merged: map<string, Progress>, pending: seq<Entry>): map<string, Progress> {
    if pending == [] then merged
    else Overlay(merged, pending[..|pending| - 1])[pending[|pending| - 1].path := pending[|pending| - 1].progress]
  }

  predicate Stops(a: Answer) { !a.before || (!a.failed && !a.after) }

  /** The server stored the entry and the session is still current: the entry is removed. */
  predicate Removes(a: Answer) { !Stops(a) && !a.failed && a.stored.Some? }

  function Reply(entry: Entry, a: Answer): Entry
    requires a.stored.Some?
  {
    Entry(entry.path, a.stored.value.(updatedAt := entry.progress.updatedAt))
  }

  /** The answers that replace local updates, among the first `n` entries. */
  function Replies(pending: seq<Entry>, answers: seq<Answer>, n: nat): seq<Entry>
    requires n <= |pending| == |answers|
  {
    if n == 0 then []
    else if Removes(answers[n - 1]) then Replies(pending, answers, n - 1) + [Reply(pending[n - 1], answers[n - 1])]
    else Replies(pending, answers, n - 1)
  }

  function RemovedEntries(pending: seq<Entry>, answers: seq<Answer>, n: nat): seq<Entry>
    requires n <= |pending| == |answers|
  {
    if n == 0 then []
    else if Removes(answers[n - 1]) then RemovedEntries(pending, answers, n - 1) + [pending[n - 1]]
    else RemovedEntries(pending, answers, n - 1)
  }

  lemma OverlaidOne(merged: map<string, Progress>, pending: seq<Entry>, e: Entry)
    ensures Overlay(merged, pending + [e]) == Overlay(merged, pending)[e.path := e.progress]
  {
    assert (pending + [e])[..|pending|] == pending;
  }

  /** Pending updates over the server's map, in order. */
  method OverlayPending(remote: map<string, Progress>, pending: seq<Entry>) returns (merged: map<string, Progress>)
    ensures merged == Overlay(remote, pending)
  {
    merged := remote;
    for i := 0 to |pending|
      invariant merged == Overlay(remote, pending[..i])
    {
      assert pending[..i + 1][..i] == pending[..i];
      merged := merged[pending[i].path := pending[i].progress];
    }
    assert pending[..|pending|] == pending;
  }

  /** `reconcileMobileProgress`: entries up to the first stop are handled, in order. */
  method ReconcileProgress(remote: map<string, Progress>, pending: seq<Entry>, answers: seq<Answer>)
    returns (merged: map<string, Progress>, removed: seq<Entry>, handled: nat)
    requires |answers| == |pending|
    ensures handled <= |pending| && forall i :: 0 <= i < handled ==> !Stops(answers[i])
    ensures handled < |pending| ==> Stops(answers[handled])
    ensures merged == Overlay(Overlay(remote, pending), Replies(pending, answers, handled))
    ensures removed == RemovedEntries(pending, answers, handled)
  {
    merged := OverlayPending(remote, pending);
    removed, handled := [], 0;
    ghost var base, replies := merged, [];
    while handled < |pending|
      invariant handled <= |pending| && forall i :: 0 <= i < handled ==> !Stops(answers[i])
      invariant replies == Replies(pending, answers, handled) && merged == Overlay(base, replies)
      invariant removed == RemovedEntries(pending, answers, handled)
    {
      var entry, a := pending[handled], answers[handled];
      if !a.before { break; }
      if !a.failed {
        if !a.after { break; }
        if a.stored.Some? {
          OverlaidOne(base, replies, Reply(entry, a));
          replies := replies + [Reply(entry, a)];
          merged := merged[entry.path := a.stored.value.(updatedAt := entry.progress.updatedAt)];
          removed := removed + [entry];
        }
      }
      handled := handled + 1;
    }
  }

  /** Only entries the server stored while the session was current are removed, each in its turn. */
  lemma {:induction false} RemovedWereStored(pending: seq<Entry>, answers: seq<Answer>, n: nat, e: Entry)
    requires n <= |pending| == |answers|
    ensures e in RemovedEntries(pending, answers, n) <==> exists i :: 0 <= i < n && pending[i] == e && Removes(answers[i])
  {
    if n > 0 { RemovedWereStored(pending, answers, n - 1, e); }
  }

  ghost predicate DistinctPaths(pending: seq<Entry>) {
    forall i, j :: 0 <= i < j < |pending| ==> pending[i].path != pending[j].path
  }

  lemma {:induction false} OverlayAt(merged: map<string, Progress>, pending: seq<Entry>, p: string)
    ensures p in Overlay(merged, pending) <==> p in merged || exists i :: 0 <= i < |pending| && pending[i].path == p
    ensures (forall i :: 0 <= i < |pending| ==> pending[i].path != p) && p in merged ==> Overlay(merged, pending)[p] == merged[p]
    ensures DistinctPaths(pending) ==> forall i :: 0 <= i < |pending| && pending[i].path == p ==> Overlay(merged, pending)[p] == pending[i].progress
  {
    if pending != [] {
      var n := |pending| - 1;
      OverlayAt(merged, pending[..n], p);
      if i :| 0 <= i < |pending| && pending[i].path == p {
        if i < n { assert pending[..n][i].path == p; }
      }
    }
  }

  lemma {:induction false} RepliesFrom(pending: seq<Entry>, answers: seq<Answer>, n: nat)
    requires n <= |pending| == |answers|
    ensures forall r :: r in Replies(pending, answers, n) <==>
      exists i :: 0 <= i < n && Removes(answers[i]) && r == Reply(pending[i], answers[i])
  {
    if n > 0 { RepliesFrom(pending, answers, n - 1); }
  }

  lemma {:induction false} RepliesFollow(pending: seq<Entry>, answers: seq<Answer>, n: nat)
    requires n <= |pending| == |answers| && DistinctPaths(pending)
    ensures DistinctPaths(Replies(pending, answers, n))
    ensures forall r :: r in Replies(pending, answers, n) <==>
      exists i :: 0 <= i < n && Removes(answers[i]) && r == Reply(pending[i], answers[i])
  {
    RepliesFrom(pending, answers, n);
    if n > 0 {
      RepliesFollow(pending, answers, n - 1);
      forall r | r in Replies(pending, answers, n - 1)
        ensures r.path != pending[n - 1].path
      {
        var i :| 0 <= i < n - 1 && Removes(answers[i]) && r == Reply(pending[i], answers[i]);
      }
    }
  }

  /**
   The merged map: server values where nothing is pending, the stored answer for what the server took, the local
   update otherwise; and a pending path always keeps its local time.
   */
  lemma MergedMeaning(remote: map<string, Progress>, pending: seq<Entry>, answers: seq<Answer>, n: nat, p: string)
    requires n <= |pending| == |answers| && DistinctPaths(pending)
    ensures var merged := Overlay(Overlay(remote, pending), Replies(pending, answers, n));
      && (p in merged <==> p in remote || exists i :: 0 <= i < |pending| && pending[i].path == p)
      && ((forall i :: 0 <= i < |pending| ==> pending[i].path != p) && p in remote ==> merged[p] == remote[p])
      && (forall i :: 0 <= i < |pending| && pending[i].path == p ==>
            && merged[p].updatedAt == pending[i].progress.updatedAt
            && (i < n && Removes(answers[i]) ==>
                  var stored := answers[i].stored.value;
                  merged[p].position == stored.position && merged[p].duration == stored.duration && merged[p].watched == stored.watched)
            && (!(i < n && Removes(answers[i])) ==> merged[p] == pending[i].progress))
  {
    RepliesFollow(pending, answers, n);
    var replies := Replies(pending, answers, n);
    OverlayAt(remote, pending, p);
    OverlayAt(Overlay(remote, pending), replies, p);
    forall i | 0 <= i < |pending| && pending[i].path == p
      ensures Overlay(Overlay(remote, pending), replies)[p] ==
        (if i < n && Removes(answers[i]) then Reply(pending[i], answers[i]) else pending[i]).progress
    {
      if i < n && Removes(answers[i]) {
        assert Reply(pending[i], answers[i]) in replies;
        var k :| 0 <= k < |replies| && replies[k] == Reply(pending[i], answers[i]);
      } else {
        forall k | 0 <= k < |replies| ensures replies[k].path != p {
          assert replies[k] in replies;
          var j :| 0 <= j < n && Removes(answers[j]) && replies[k] == Reply(pending[j], answers[j]);
        }
      }
    }
  }

  predicate IsPending(pending: seq<Entry>, p: string) { exists i :: 0 <= i < |pending| && pending[i].path == p }

  /** Some entry of the path decides its value. */
  lemma {:induction false} OverlaySource(merged: map<string, Progress>, pending: seq<Entry>, p: string)
    ensures p in Overlay(merged, pending) <==> p in merged || IsPending(pending, p)
    ensures IsPending(pending, p) ==> exists i :: 0 <= i < |pending| && pending[i].path == p && Overlay(merged, pending)[p] == pending[i].progress
    ensures !IsPending(pending, p) && p in merged ==> Overlay(merged, pending)[p] == merged[p]
  {
    if pending != [] {
      var n := |pending| - 1;
      OverlaySource(merged, pending[..n], p);
      if IsPending(pending[..n], p) {
        var i :| 0 <= i < n && pending[..n][i].path == p && Overlay(merged, pending[..n])[p] == pending[..n][i].progress;
        assert pending[i].path == p;
      }
    }
  }

  /** A pending path carries the local time of one of its entries, whether or not the server answered. */
  lemma MergedStamp(remote: map<string, Progress>, pending: seq<Entry>, answers: seq<Answer>, n: nat, p: string)
    requires n <= |pending| == |answers| && IsPending(pending, p)
    ensures var merged := Overlay(Overlay(remote, pending), Replies(pending, answers, n));
      p in merged && exists i :: 0 <= i < |pending| && pending[i].path == p && merged[p].updatedAt == pending[i].progress.updatedAt
  {
    var replies := Replies(pending, answers, n);
    OverlaySource(remote, pending, p);
    OverlaySource(Overlay(remote, pending), replies, p);
    RepliesFrom(pending, answers, n);
    if IsPending(replies, p) {
      var k :| 0 <= k < |replies| && replies[k].path == p && Overlay(Overlay(remote, pending), replies)[p] == replies[k].progress;
      assert replies[k] in replies;
    }
  }

  /** What the app shows after hydration: its own entries win where they are newer than the merged ones. */
  function Hydrated(merged: map<string, Progress>, current: map<string, Progress>): map<string, Progress> {
    merged + map p | p in current && current[p].updatedAt > (if p in merged then merged[p].updatedAt else 0) :: current[p]
  }

  /** `time` is that of some pending entry of the path, or later. */
  predicate NoEarlier(pending: seq<Entry>, p: string, time: int) {
    exists i :: 0 <= i < |pending| && pending[i].path == p && time >= pending[i].progress.updatedAt
  }

  /** `time` is later than every pending entry of the path. */
  predicate NewerThanPending(pending: seq<Entry>, p: string, time: int) {
    forall i :: 0 <= i < |pending| && pending[i].path == p ==> time > pending[i].progress.updatedAt
  }

  function MergedMap(remote: map<string, Progress>, pending: seq<Entry>, answers: seq<Answer>, n: nat): map<string, Progress>
    requires n <= |pending| == |answers|
  {
    Overlay(Overlay(remote, pending), Replies(pending, answers, n))
  }

  /**
   For every path, pending ones that share a path included: a reply to older updates never hides a newer one, and no
   shown path goes back in time, against the merged map or against the app.  Only an entry of the app that is neither
   merged nor dated after 0 is not shown.
   */
  lemma HydrationKeepsNewer(
    remote: map<string, Progress>, pending: seq<Entry>, answers: seq<Answer>, n: nat, current: map<string, Progress>, p: string)
    requires n <= |pending| == |answers|
    ensures p in Hydrated(MergedMap(remote, pending, answers, n), current) <==>
      p in MergedMap(remote, pending, answers, n) || (p in current && current[p].updatedAt > 0)
    ensures
      var merged := MergedMap(remote, pending, answers, n);
      var shown := Hydrated(merged, current);
      p in shown ==>
        && shown[p] == (if p in current && (p in merged ==> current[p].updatedAt > merged[p].updatedAt) then current[p] else merged[p])
        && (p in merged ==> shown[p].updatedAt >= merged[p].updatedAt)
        && (p in current ==> shown[p].updatedAt >= current[p].updatedAt)
        && (IsPending(pending, p) ==> NoEarlier(pending, p, shown[p].updatedAt))
        && (IsPending(pending, p) && p in current && NewerThanPending(pending, p, current[p].updatedAt) ==> shown[p] == current[p])
  {
    if IsPending(pending, p) { MergedStamp(remote, pending, answers, n, p); }
  }
}
