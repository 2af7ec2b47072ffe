/**
 Credential refresh against disconnecting (refreshSavedCredentials, invalidateCredentialRefresh and
 clearAuthorizedSession in apps/mobile/App.tsx, with the write queue of mobileCredentialPersistence.ts).
 */
module Credentials {
  import opened Options

  /** `begun` is history: how many refreshes had begun when the clear was called. */
  datatype Task = StoreRefreshed(refresh: nat) | StoreOther | Erase | Delete(begun: nat)

  datatype Phase = Queued | Writing | Wrote | Settled(ok: bool)

  datatype Job = Job(task: Task, phase: Phase)

  datatype Stage = Requesting | Storing(job: nat) | Done | Untracked

  /**
   The session a refresh captures is its generation.  The code also compares an identity of the session; leaving that
   out lets the model's refreshes stay current at least as long as the code's.
   */
  datatype Refresh = Refresh(key: string, session: nat, stage: Stage)

  datatype Origin = Refreshed(refresh: nat) | Connected

  /** `stored` is the job whose credential is in the secure store; `saved` the saved connection on screen. */
  datatype State = State(
    session: nat, refreshKey: Option<string>, shared: Option<nat>,
    refreshes: seq<Refresh>, jobs: seq<Job>, stored: Option<nat>, saved: Option<Origin>)

  function Fresh(): State { State(0, None, None, [], [], None, None) }

  /** The session has not changed since the refresh began, and no other refresh or clear replaced its key. */
  predicate Current(s: State, r: nat)
    requires r < |s.refreshes|
  {
    s.refreshes[r].session == s.session && s.refreshKey == Some(s.refreshes[r].key)
  }

  predicate Shared(s: State, key: string) {
    s.shared.Some? && s.shared.value < |s.refreshes| && s.refreshes[s.shared.value].key == key
  }

  function Called(s: State, key: string): State {
    var joins := Shared(s, key);
    s.(refreshKey := if joins then s.refreshKey else Some(key),
       shared := if joins then s.shared else Some(|s.refreshes|),
       refreshes := s.refreshes + if joins then [] else [Refresh(key, s.session, Requesting)])
  }

  function At(s: State, r: nat, stage: Stage): State
    requires r < |s.refreshes|
  {
    s.(refreshes := s.refreshes[r := s.refreshes[r].(stage := stage)])
  }

  function Answered(s: State, r: nat, ok: bool): State
    requires r < |s.refreshes|
  {
    var goes := ok && Current(s, r);
    At(s.(jobs := s.jobs + if goes then [Job(StoreRefreshed(r), Queued)] else []), r, if goes then Storing(|s.jobs|) else Done)
  }

  function JobAt(s: State, j: nat, p: Phase): State
    requires j < |s.jobs|
  {
    s.(jobs := s.jobs[j := s.jobs[j].(phase := p)])
  }

  /** The check at the head of a queued refresh write. */
  function Started(s: State, j: nat): State
    requires j < |s.jobs|
  {
    var task := s.jobs[j].task;
    JobAt(s, j, if task.StoreRefreshed? && !(task.refresh < |s.refreshes| && Current(s, task.refresh)) then Settled(true) else Writing)
  }

  function Written(s: State, j: nat): State
    requires j < |s.jobs|
  {
    JobAt(s.(stored := if s.jobs[j].task.Delete? || s.jobs[j].task.Erase? then None else Some(j)), j, Wrote)
  }

  function Resumed(s: State, r: nat): State
    requires r < |s.refreshes| && s.refreshes[r].stage.Storing? && s.refreshes[r].stage.job < |s.jobs|
  {
    var job := s.jobs[s.refreshes[r].stage.job];
    At(s.(saved := if job.phase == Settled(true) && Current(s, r) then Some(Refreshed(r)) else s.saved), r, Done)
  }

  function Cleared(s: State): State {
    s.(session := s.session + 1, refreshKey := None, shared := None, saved := None,
       jobs := s.jobs + [Job(Delete(|s.refreshes|), Queued)])
  }

  datatype Event =
    | CallRefresh(key: string)
    | Response(r: nat, ok: bool)
    | Start(j: nat)
    | Write(j: nat)
    | Finish(j: nat)
    | Fail(j: nat)
    | Resume(r: nat)
    | Untrack(r: nat)
    | Clear
    | ChangeSession                                 // a profile switch
    | Invalidate
    | QueueOther(erases: bool)                      // writes outside a refresh
    | Connect                                       // another path sets the saved connection

  predicate Enabled(s: State, e: Event) {
    match e
    case Response(r, _) => r < |s.refreshes| && s.refreshes[r].stage.Requesting?
    case Start(j) => j < |s.jobs| && s.jobs[j].phase.Queued? && forall i :: 0 <= i < j ==> s.jobs[i].phase.Settled?
    case Write(j) => j < |s.jobs| && s.jobs[j].phase.Writing?
    case Finish(j) => j < |s.jobs| && s.jobs[j].phase.Wrote?
    case Fail(j) => j < |s.jobs| && s.jobs[j].phase.Writing?
    case Resume(r) =>
      r < |s.refreshes| && s.refreshes[r].stage.Storing? && s.refreshes[r].stage.job < |s.jobs|
      && s.jobs[s.refreshes[r].stage.job].phase.Settled?
    case Untrack(r) => r < |s.refreshes| && s.refreshes[r].stage.Done?
    case _ => true
  }

  function Apply(s: State, e: Event): State
    requires Enabled(s, e)
  {
    match e
    case CallRefresh(key) => Called(s, key)
    case Response(r, ok) => Answered(s, r, ok)
    case Start(j) => Started(s, j)
    case Write(j) => Written(s, j)
    case Finish(j) => JobAt(s, j, Settled(true))
    case Fail(j) => JobAt(s, j, Settled(false))
    case Resume(r) => Resumed(s, r)
    case Untrack(r) => At(s.(shared := if Shared(s, s.refreshes[r].key) then None else s.shared), r, Untracked)
    case Clear => Cleared(s)
    case ChangeSession => s.(session := s.session + 1)
    case Invalidate => s.(refreshKey := None, shared := None)
    case QueueOther(erases) => s.(jobs := s.jobs + [Job(if erases then Erase else StoreOther, Queued)])
    case Connect => s.(saved := Some(Connected))
  }

  // ---- the invariant ---------------------------------------------------------------------

  /** Every refresh that had begun by the clear of job `d` belongs to an ended session. */
  ghost predicate ClearOk(s: State, d: nat)
    requires d < |s.jobs|
  {
    s.jobs[d].task.Delete? ==>
      s.jobs[d].task.begun <= |s.refreshes| && forall r :: 0 <= r < s.jobs[d].task.begun ==> s.refreshes[r].session < s.session
  }

  predicate After(s: State, j: nat, d: nat)
    requires j < |s.jobs| && d < |s.jobs|
  {
    s.jobs[j].task.StoreRefreshed? && s.jobs[d].task.Delete? ==> s.jobs[d].task.begun <= s.jobs[j].task.refresh
  }

  /** A refresh write that was not skipped began after every clear queued before it. */
  ghost predicate WriteOk(s: State, j: nat)
    requires j < |s.jobs|
  {
    && (s.jobs[j].task.StoreRefreshed? ==> s.jobs[j].task.refresh < |s.refreshes|)
    && (s.jobs[j].phase.Writing? || s.jobs[j].phase.Wrote? ==> forall d :: 0 <= d < j ==> After(s, j, d))
  }

  predicate Deleted(s: State, d: nat) {
    d < |s.jobs| && s.jobs[d].task.Delete? && (s.jobs[d].phase.Wrote? || s.jobs[d].phase == Settled(true))
  }

  ghost predicate StoredOk(s: State) {
    s.stored.Some? ==>
      && s.stored.value < |s.jobs| && !s.jobs[s.stored.value].phase.Queued?
      && !s.jobs[s.stored.value].task.Delete? && !s.jobs[s.stored.value].task.Erase?
      && (forall d :: 0 <= d < s.stored.value ==> After(s, s.stored.value, d))
      && (forall d: nat :: Deleted(s, d) ==> d < s.stored.value)
  }

  ghost predicate Inv(s: State) {
    && (forall i, j :: 0 <= i < j < |s.jobs| && !s.jobs[j].phase.Queued? ==> s.jobs[i].phase.Settled?)
    && (forall r :: 0 <= r < |s.refreshes| ==> s.refreshes[r].session <= s.session)
    && (forall d :: 0 <= d < |s.jobs| ==> ClearOk(s, d))
    && (forall j :: 0 <= j < |s.jobs| ==> WriteOk(s, j))
    && StoredOk(s)
  }

  ghost predicate SameTasks(s: State, t: State) {
    && |s.jobs| <= |t.jobs| && (forall j :: 0 <= j < |s.jobs| ==> t.jobs[j].task == s.jobs[j].task)
    && |s.refreshes| <= |t.refreshes|
    && (forall r :: 0 <= r < |s.refreshes| ==> t.refreshes[r].session == s.refreshes[r].session && t.refreshes[r].key == s.refreshes[r].key)
    && s.session <= t.session
  }

  lemma KeepsClears(s: State, t: State)
    requires SameTasks(s, t) && forall d :: 0 <= d < |s.jobs| ==> ClearOk(s, d)
    ensures forall d :: 0 <= d < |s.jobs| ==> ClearOk(t, d)
  {
    forall d | 0 <= d < |s.jobs| ensures ClearOk(t, d) { assert ClearOk(s, d); }
  }

  lemma KeepsWrites(s: State, t: State, j: nat)
    requires SameTasks(s, t) && j < |s.jobs| && WriteOk(s, j)
    requires t.jobs[j].phase == s.jobs[j].phase || t.jobs[j].phase.Settled? || (t.jobs[j].phase.Wrote? && s.jobs[j].phase.Writing?)
    ensures WriteOk(t, j)
  {
    forall d | 0 <= d < j && (t.jobs[j].phase.Writing? || t.jobs[j].phase.Wrote?) ensures After(t, j, d) {
      assert After(s, j, d);
    }
  }

  lemma KeepsStored(s: State, t: State)
    requires StoredOk(s) && SameTasks(s, t) && t.stored == s.stored
    requires forall j :: 0 <= j < |s.jobs| && !s.jobs[j].phase.Queued? ==> !t.jobs[j].phase.Queued?
    requires forall d: nat :: Deleted(t, d) ==> Deleted(s, d)
    ensures StoredOk(t)
  {
    if s.stored.Some? {
      forall d | 0 <= d < s.stored.value ensures After(t, s.stored.value, d) { assert After(s, s.stored.value, d); }
    }
  }

  /** Steps that run no job. */
  lemma KeepsOutside(s: State, e: Event)
    requires Inv(s) && Enabled(s, e) && !e.Start? && !e.Write? && !e.Finish? && !e.Fail?
    ensures Inv(Apply(s, e))
  {
    var t := Apply(s, e);
    assert forall j :: 0 <= j < |s.jobs| ==> t.jobs[j] == s.jobs[j];
    assert SameTasks(s, t);
    KeepsClears(s, t);
    KeepsStored(s, t);
    forall j | 0 <= j < |t.jobs| ensures WriteOk(t, j) {
      if j < |s.jobs| { KeepsWrites(s, t, j); }
    }
  }

  lemma KeepsStart(s: State, j: nat)
    requires Inv(s) && Enabled(s, Start(j))
    ensures Inv(Started(s, j))
  {
    var t := Started(s, j);
    KeepsClears(s, t);
    forall d: nat | Deleted(t, d) ensures Deleted(s, d) { assert d == j ==> false; }
    KeepsStored(s, t);
    forall i | 0 <= i < |t.jobs| ensures WriteOk(t, i) {
      assert WriteOk(s, i);
      if i != j {
        KeepsWrites(s, t, i);
      } else if t.jobs[j].phase.Writing? {
        forall d | 0 <= d < j ensures After(t, j, d) { assert ClearOk(s, d); }
      }
    }
  }

  lemma KeepsSettling(s: State, j: nat, ok: bool)
    requires Inv(s) && j < |s.jobs| && (if ok then s.jobs[j].phase.Wrote? else s.jobs[j].phase.Writing?)
    ensures Inv(JobAt(s, j, Settled(ok)))
  {
    var t := JobAt(s, j, Settled(ok));
    KeepsClears(s, t);
    KeepsStored(s, t);
    forall i | 0 <= i < |t.jobs| ensures WriteOk(t, i) { KeepsWrites(s, t, i); }
  }

  lemma KeepsWrite(s: State, j: nat)
    requires Inv(s) && Enabled(s, Write(j))
    ensures Inv(Written(s, j))
  {
    var t := Written(s, j);
    KeepsClears(s, t);
    forall i | 0 <= i < |t.jobs| ensures WriteOk(t, i) { KeepsWrites(s, t, i); }
    assert WriteOk(t, j);
  }

  lemma KeepsStep(s: State, e: Event)
    requires Inv(s) && Enabled(s, e)
    ensures Inv(Apply(s, e))
  {
    match e
    case Start(j) => KeepsStart(s, j);
    case Write(j) => KeepsWrite(s, j);
    case Finish(j) => KeepsSettling(s, j, true);
    case Fail(j) => KeepsSettling(s, j, false);
    case _ => KeepsOutside(s, e);
  }

  // ---- runs ------------------------------------------------------------------------------------

  ghost predicate Run(s: State, events: seq<Event>)
    decreases |events|
  {
    events == [] || (Enabled(s, events[0]) && Run(Apply(s, events[0]), events[1..]))
  }

  ghost function End(s: State, events: seq<Event>): State
    requires Run(s, events)
    decreases |events|
  {
    if events == [] then s else End(Apply(s, events[0]), events[1..])
  }

  lemma {:induction false} RunKeeps(s: State, events: seq<Event>)
    requires Inv(s) && Run(s, events)
    ensures Inv(End(s, events))
    decreases |events|
  {
    if events != [] {
      KeepsStep(s, events[0]);
      RunKeeps(Apply(s, events[0]), events[1..]);
    }
  }

  /** Refresh `r` belongs to an ended session and is not what the app shows. */
  predicate Superseded(s: State, r: nat) {
    r < |s.refreshes| && s.refreshes[r].session < s.session && s.saved != Some(Refreshed(r))
  }

  lemma {:induction false} SupersededStays(s: State, events: seq<Event>, r: nat)
    requires Superseded(s, r) && Run(s, events)
    ensures Superseded(End(s, events), r)
    decreases |events|
  {
    if events != [] {
      assert Superseded(Apply(s, events[0]), r);
      SupersededStays(Apply(s, events[0]), events[1..], r);
    }
  }

  /** A refresh begun before the session was cleared never becomes the saved connection afterwards. */
  lemma OldRefreshNeverShows(before: seq<Event>, r: nat, after: seq<Event>)
    requires Run(Fresh(), before) && r < |End(Fresh(), before).refreshes|
    requires Run(Cleared(End(Fresh(), before)), after)
    ensures End(Cleared(End(Fresh(), before)), after).saved != Some(Refreshed(r))
  {
    RunKeeps(Fresh(), before);
    SupersededStays(Cleared(End(Fresh(), before)), after, r);
  }

  /**
   Once the delete of a clear has run, whatever credential the store holds was queued behind it, and if it came from a
   refresh, that refresh had not begun when the session was cleared.
   */
  lemma NothingOldIsStored(events: seq<Event>, d: nat)
    requires Run(Fresh(), events) && Deleted(End(Fresh(), events), d) && End(Fresh(), events).stored.Some?
    ensures var s := End(Fresh(), events);
      && d < s.stored.value < |s.jobs|
      && (s.jobs[s.stored.value].task.StoreRefreshed? ==> s.jobs[d].task.begun <= s.jobs[s.stored.value].task.refresh)
  {
    RunKeeps(Fresh(), events);
    var s := End(Fresh(), events);
    assert After(s, s.stored.value, d);
  }

  predicate NotAmong(task: Task, refreshes: nat) { task.StoreRefreshed? ==> refreshes <= task.refresh }

  /** The same for one clear in the middle of a run. */
  lemma OldRefreshIsNotStored(before: seq<Event>, after: seq<Event>)
    requires Run(Fresh(), before) && Run(Cleared(End(Fresh(), before)), after)
    requires Deleted(End(Cleared(End(Fresh(), before)), after), |End(Fresh(), before).jobs|)
    ensures
      var s, t := End(Fresh(), before), End(Cleared(End(Fresh(), before)), after);
      t.stored.None? || (t.stored.value < |t.jobs| && NotAmong(t.jobs[t.stored.value].task, |s.refreshes|))
  {
    var s := End(Fresh(), before);
    RunKeeps(Fresh(), before);
    KeepsStep(s, Clear);
    RunKeeps(Cleared(s), after);
    TaskStays(Cleared(s), after, |s.jobs|);
    var t := End(Cleared(s), after);
    if t.stored.Some? { assert After(t, t.stored.value, |s.jobs|); }
  }

  lemma {:induction false} TaskStays(s: State, events: seq<Event>, j: nat)
    requires Run(s, events) && j < |s.jobs|
    ensures j < |End(s, events).jobs| && End(s, events).jobs[j].task == s.jobs[j].task
    decreases |events|
  {
    if events != [] {
      assert Apply(s, events[0]).jobs[j].task == s.jobs[j].task;
      TaskStays(Apply(s, events[0]), events[1..], j);
    }
  }

  lemma WriteStarts(s: State, key: string) returns (t: State)
    requires s.shared.None? && forall j :: 0 <= j < |s.jobs| ==> s.jobs[j].phase.Settled?
    ensures var r, j := |s.refreshes|, |s.jobs|;
      && t == Started(Answered(Called(s, key), r, true), j)
      && t.jobs == s.jobs + [Job(StoreRefreshed(r), Writing)]
      && t.refreshes == s.refreshes + [Refresh(key, s.session, Storing(j))]
      && t.refreshKey == Some(key) && t.session == s.session && t.shared == Some(r)
  {
    t := Started(Answered(Called(s, key), |s.refreshes|, true), |s.jobs|);
  }

  lemma WriteEnds(s: State, r: nat, j: nat)
    requires r < |s.refreshes| && j < |s.jobs| && Current(s, r)
    requires s.refreshes[r].stage == Storing(j) && s.jobs[j] == Job(StoreRefreshed(r), Writing) && s.shared == Some(r)
    ensures var events := [Write(j), Finish(j)] + [Resume(r), Untrack(r)];
      Run(s, events) && ShownAndStored(End(s, events), r, j) && End(s, events).shared.None?
  {
    var s1 := Written(s, j);
    var s2 := JobAt(s1, j, Settled(true));
    var s3 := Resumed(s2, r);
    assert Run(Apply(s3, Untrack(r)), []);
    RunCons(s3, Untrack(r), []);
    RunCons(s2, Resume(r), [Untrack(r)]);
    RunCons(s1, Finish(j), [Resume(r), Untrack(r)]);
    RunCons(s, Write(j), [Finish(j)] + [Resume(r), Untrack(r)]);
    assert [Untrack(r)] + [] == [Untrack(r)] && [Resume(r)] + [Untrack(r)] == [Resume(r), Untrack(r)];
    assert [Write(j)] + ([Finish(j)] + [Resume(r), Untrack(r)]) == [Write(j), Finish(j)] + [Resume(r), Untrack(r)];
  }

  predicate ShownAndStored(s: State, r: nat, j: nat) {
    s.saved == Some(Refreshed(r)) && s.stored == Some(j) && j < |s.jobs| && s.jobs[j] == Job(StoreRefreshed(r), Settled(true))
  }

  /** Every step of a refresh that nothing disturbs. */
  function WholeRefresh(r: nat, j: nat, key: string): seq<Event> {
    [CallRefresh(key), Response(r, true), Start(j)] + ([Write(j), Finish(j)] + [Resume(r), Untrack(r)])
  }

  /** With every write settled and no one interfering, a refresh is stored, then shown, and the next call begins a new one. */
  lemma UndisturbedRefreshIsStored(s: State, key: string)
    requires s.shared.None? && forall j :: 0 <= j < |s.jobs| ==> s.jobs[j].phase.Settled?
    ensures
      var r, j := |s.refreshes|, |s.jobs|;
      var events := WholeRefresh(r, j, key);
      Run(s, events) && ShownAndStored(End(s, events), r, j) && End(s, events).shared.None?
  {
    var r, j := |s.refreshes|, |s.jobs|;
    var last := [Write(j), Finish(j)] + [Resume(r), Untrack(r)];
    var s1 := Called(s, key);
    var s2 := Answered(s1, r, true);
    var s3 := WriteStarts(s, key);
    WriteEnds(s3, r, j);
    RunCons(s2, Start(j), last);
    RunCons(s1, Response(r, true), [Start(j)] + last);
    RunCons(s, CallRefresh(key), [Response(r, true)] + ([Start(j)] + last));
    assert [CallRefresh(key), Response(r, true), Start(j)] + last == [CallRefresh(key)] + ([Response(r, true)] + ([Start(j)] + last));
  }

  lemma ClearRuns(s: State)
    requires forall j :: 0 <= j < |s.jobs| ==> s.jobs[j].phase.Settled?
    ensures
      var j := |s.jobs|;
      var events := [Clear, Start(j), Write(j), Finish(j)];
      Run(s, events)
      && var t := End(s, events);
         && t.shared.None? && t.stored.None? && t.saved.None? && t.refreshes == s.refreshes && |t.jobs| == j + 1
         && forall i :: 0 <= i < |t.jobs| ==> t.jobs[i].phase.Settled?
  {
    var j := |s.jobs|;
    var s1 := Cleared(s);
    var s2 := Started(s1, j);
    var s3 := Written(s2, j);
    assert Run(JobAt(s3, j, Settled(true)), []);
    RunCons(s3, Finish(j), []);
    RunCons(s2, Write(j), [Finish(j)]);
    RunCons(s1, Start(j), [Write(j), Finish(j)]);
    RunCons(s, Clear, [Start(j), Write(j), Finish(j)]);
    assert [Finish(j)] + [] == [Finish(j)] && [Write(j)] + [Finish(j)] == [Write(j), Finish(j)];
    assert [Start(j)] + [Write(j), Finish(j)] == [Start(j), Write(j), Finish(j)];
    assert [Clear] + [Start(j), Write(j), Finish(j)] == [Clear, Start(j), Write(j), Finish(j)];
  }

  lemma {:induction false} RunThen(s: State, first: seq<Event>, second: seq<Event>)
    requires Run(s, first) && Run(End(s, first), second)
    ensures Run(s, first + second) && End(s, first + second) == End(End(s, first), second)
    decreases |first|
  {
    if first == [] {
      assert first + second == second;
    } else {
      assert (first + second)[1..] == first[1..] + second;
      RunThen(Apply(s, first[0]), first[1..], second);
    }
  }

  /** Whatever refresh was under way, a clear leaves nothing stored or shown, and the next refresh of any key starts afresh and is stored. */
  lemma RefreshAfterClear(s: State, key: string)
    requires forall j :: 0 <= j < |s.jobs| ==> s.jobs[j].phase.Settled?
    ensures
      var r, j := |s.refreshes|, |s.jobs|;
      var events := [Clear, Start(j), Write(j), Finish(j)] + WholeRefresh(r, j + 1, key);
      Run(s, events) && ShownAndStored(End(s, events), r, j + 1)
  {
    var j := |s.jobs|;
    ClearRuns(s);
    UndisturbedRefreshIsStored(End(s, [Clear, Start(j), Write(j), Finish(j)]), key);
    RunThen(s, [Clear, Start(j), Write(j), Finish(j)], WholeRefresh(|s.refreshes|, j + 1, key));
  }

  lemma RunCons(s: State, e: Event, rest: seq<Event>)
    requires Enabled(s, e) && Run(Apply(s, e), rest)
    ensures Run(s, [e] + rest) && End(s, [e] + rest) == End(Apply(s, e), rest)
  {
    assert ([e] + rest)[1..] == rest;
  }

  // ---- when a refresh is shown ------------------------------------------------------------------

  /** At some step the refresh becomes the saved connection. */
  ghost predicate EverShown(s: State, events: seq<Event>, r: nat)
    requires Run(s, events)
    decreases |events|
  {
    && events != []
    && ((s.saved != Some(Refreshed(r)) && Apply(s, events[0]).saved == Some(Refreshed(r))) || EverShown(Apply(s, events[0]), events[1..], r))
  }

  /** It is answered well, its write does not fail, and it is current at its answer and when it resumes after the write. */
  ghost predicate Succeeds(s: State, events: seq<Event>, r: nat)
    requires Run(s, events) && r < |s.refreshes|
    decreases |events|
  {
    && events != []
    && match events[0]
       case Response(q, ok) => (q == r ==> ok && Current(s, r)) && Succeeds(Apply(s, events[0]), events[1..], r)
       case Fail(j) => s.refreshes[r].stage != Storing(j) && Succeeds(Apply(s, events[0]), events[1..], r)
       case Resume(q) => if q == r then Current(s, r) else Succeeds(Apply(s, events[0]), events[1..], r)
       case _ => Succeeds(Apply(s, events[0]), events[1..], r)
  }

  predicate OnItsWay(s: State, r: nat) {
    && r < |s.refreshes| && s.saved != Some(Refreshed(r))
    && match s.refreshes[r].stage
       case Requesting => true
       case Storing(j) => j < |s.jobs| && s.jobs[j].phase != Settled(false)
       case _ => false
  }

  /** It is over, or the write it waits for has failed. */
  predicate Lost(s: State, r: nat) {
    && r < |s.refreshes| && s.saved != Some(Refreshed(r))
    && match s.refreshes[r].stage
       case Requesting => false
       case Storing(j) => j < |s.jobs| && s.jobs[j].phase == Settled(false)
       case _ => true
  }

  lemma StaysLost(s: State, e: Event, r: nat)
    requires Enabled(s, e) && Lost(s, r)
    ensures Lost(Apply(s, e), r)
  {
  }

  lemma {:induction false} LostIsNeverShown(s: State, events: seq<Event>, r: nat)
    requires Run(s, events) && Lost(s, r)
    ensures !EverShown(s, events, r)
    decreases |events|
  {
    if events != [] {
      StaysLost(s, events[0], r);
      LostIsNeverShown(Apply(s, events[0]), events[1..], r);
    }
  }

  /** The steps that decide about refresh `r`. */
  predicate Decides(s: State, e: Event, r: nat)
    requires r < |s.refreshes|
  {
    match e
    case Response(q, _) => q == r
    case Resume(q) => q == r
    case Fail(j) => s.refreshes[r].stage == Storing(j)
    case _ => false
  }

  lemma StaysOnItsWay(s: State, e: Event, r: nat)
    requires Enabled(s, e) && OnItsWay(s, r) && !Decides(s, e, r)
    ensures OnItsWay(Apply(s, e), r)
  {
  }

  lemma {:induction false} ShownExactly(s: State, events: seq<Event>, r: nat)
    requires Run(s, events) && OnItsWay(s, r)
    ensures EverShown(s, events, r) <==> Succeeds(s, events, r)
    decreases |events|
  {
    if events != [] {
      var e, t := events[0], Apply(s, events[0]);
      if !Decides(s, e, r) {
        StaysOnItsWay(s, e, r);
        ShownExactly(t, events[1..], r);
      } else if OnItsWay(t, r) {
        ShownExactly(t, events[1..], r);
      } else if Lost(t, r) {
        LostIsNeverShown(t, events[1..], r);
      }
    }
  }

  lemma {:induction false} ShownHasBegun(s: State, events: seq<Event>)
    requires Run(s, events) && (s.saved.Some? && s.saved.value.Refreshed? ==> s.saved.value.refresh < |s.refreshes|)
    ensures var t := End(s, events); t.saved.Some? && t.saved.value.Refreshed? ==> t.saved.value.refresh < |t.refreshes|
    decreases |events|
  {
    if events != [] { ShownHasBegun(Apply(s, events[0]), events[1..]); }
  }

  /**
   In every run: a refresh that a call begins is shown if and only if it is answered well, its write does not fail, and
   it is current both at its answer and when it resumes.
   */
  lemma RefreshIsShownExactly(before: seq<Event>, key: string, after: seq<Event>)
    requires Run(Fresh(), before) && !Shared(End(Fresh(), before), key)
    requires Run(Apply(End(Fresh(), before), CallRefresh(key)), after)
    ensures
      var s := End(Fresh(), before);
      var called := Apply(s, CallRefresh(key));
      && |called.refreshes| == |s.refreshes| + 1 && called.refreshes[|s.refreshes|].key == key
      && (EverShown(called, after, |s.refreshes|) <==> Succeeds(called, after, |s.refreshes|))
  {
    var s := End(Fresh(), before);
    ShownHasBegun(Fresh(), before);
    ShownExactly(Apply(s, CallRefresh(key)), after, |s.refreshes|);
  }

  // ---- one refresh for each key -------------------------------------------------------------------

  predicate UnderWay(s: State, r: nat) { r < |s.refreshes| && !s.refreshes[r].stage.Untracked? }

  /** Nothing but refreshes of this key: no clear, no invalidation, no refresh of another key. */
  predicate Calm(e: Event, key: string) { !e.Clear? && !e.Invalidate? && (e.CallRefresh? ==> e.key == key) }

  /** The refresh of the key that is under way, if any, is the one that calls join. */
  ghost predicate Tracked(s: State, key: string) {
    && (s.shared.Some? ==> s.shared.value < |s.refreshes|)
    && forall r: nat :: UnderWay(s, r) && s.refreshes[r].key == key ==> s.shared == Some(r)
  }

  lemma CalmStepTracks(s: State, e: Event, key: string)
    requires Enabled(s, e) && Tracked(s, key) && Calm(e, key)
    ensures Tracked(Apply(s, e), key)
  {
    var t := Apply(s, e);
    assert forall r: nat :: r < |s.refreshes| && UnderWay(t, r) ==> UnderWay(s, r) && t.refreshes[r].key == s.refreshes[r].key;
    if e.Untrack? { assert UnderWay(s, e.r); }
  }

  /** However often it is called, at most one refresh of a key is under way while nothing else interferes. */
  lemma {:induction false} OneRefreshForEachKey(s: State, key: string, events: seq<Event>, q: nat, r: nat)
    requires Run(s, events) && Tracked(s, key) && forall e :: e in events ==> Calm(e, key)
    requires var t := End(s, events);
      UnderWay(t, q) && UnderWay(t, r) && t.refreshes[q].key == t.refreshes[r].key == key
    ensures q == r
    decreases |events|
  {
    if events != [] {
      CalmStepTracks(s, events[0], key);
      assert forall e :: e in events[1..] ==> e in events;
      OneRefreshForEachKey(Apply(s, events[0]), key, events[1..], q, r);
    }
  }

  // ---- the component's refs ------------------------------------------------------------------------

  class CredentialSession {
    var sessionGeneration: nat
    var refreshKey: Option<string>            // credentialRefreshKeyRef
    var refreshShared: Option<nat>            // credentialRefreshPromiseRef
    var refreshes: seq<Refresh>
    var jobs: seq<Job>                        // credentialMutations
    var saved: Option<Origin>
    ghost var stored: Option<nat>

    ghost function View(): State
      reads this
    {
      State(sessionGeneration, refreshKey, refreshShared, refreshes, jobs, stored, saved)
    }

    ghost predicate Valid()
      reads this
    {
      Inv(View())
    }

    constructor ()
      ensures Valid() && View() == Fresh()
    {
      sessionGeneration, refreshKey, refreshShared, refreshes, jobs, saved, stored := 0, None, None, [], [], None, None;
    }

    predicate IsCurrent(r: nat)
      requires r < |refreshes|
      reads this
    {
      refreshes[r].session == sessionGeneration && refreshKey == Some(refreshes[r].key)
    }

    method RefreshSavedCredentials(key: string) returns (r: nat)
      requires Valid()
      modifies this
      ensures View() == Apply(old(View()), CallRefresh(key)) && Valid()
      ensures r < |refreshes| && refreshes[r].key == key && refreshShared == Some(r)
    {
      KeepsStep(View(), CallRefresh(key));
      if refreshShared.Some? && refreshShared.value < |refreshes| && refreshes[refreshShared.value].key == key {
        return refreshShared.value;
      }
      r := |refreshes|;
      refreshKey := Some(key);
      refreshes := refreshes + [Refresh(key, sessionGeneration, Requesting)];
      refreshShared := Some(r);
    }

    method AfterResponse(r: nat, ok: bool)
      requires Valid() && Enabled(View(), Response(r, ok))
      modifies this
      ensures View() == Apply(old(View()), Response(r, ok)) && Valid()
    {
      KeepsStep(View(), Response(r, ok));
      if !ok || !IsCurrent(r) {
        refreshes := refreshes[r := refreshes[r].(stage := Done)];
      } else {
        refreshes := refreshes[r := refreshes[r].(stage := Storing(|jobs|))];
        jobs := jobs + [Job(StoreRefreshed(r), Queued)];
      }
    }

    method StartMutation(j: nat)
      requires Valid() && Enabled(View(), Start(j))
      modifies this`jobs
      ensures View() == Apply(old(View()), Start(j)) && Valid()
    {
      KeepsStep(View(), Start(j));
      assert WriteOk(View(), j);
      if jobs[j].task.StoreRefreshed? && !IsCurrent(jobs[j].task.refresh) {
        jobs := jobs[j := jobs[j].(phase := Settled(true))];
      } else {
        jobs := jobs[j := jobs[j].(phase := Writing)];
      }
    }

    method AfterStoring(r: nat)
      requires Valid() && Enabled(View(), Resume(r))
      modifies this
      ensures View() == Apply(old(View()), Resume(r)) && Valid()
    {
      KeepsStep(View(), Resume(r));
      if jobs[refreshes[r].stage.job].phase == Settled(true) && IsCurrent(r) { saved := Some(Refreshed(r)); }
      refreshes := refreshes[r := refreshes[r].(stage := Done)];
    }

    method InvalidateRefresh()
      requires Valid()
      modifies this`refreshKey, this`refreshShared
      ensures View() == Apply(old(View()), Invalidate) && Valid()
    {
      KeepsStep(View(), Invalidate);
      refreshKey, refreshShared := None, None;
    }

    method ClearAuthorizedSession()
      requires Valid()
      modifies this
      ensures View() == Apply(old(View()), Clear) && Valid()
      ensures forall r :: 0 <= r < |refreshes| ==> !IsCurrent(r) && Superseded(View(), r)
    {
      KeepsStep(View(), Clear);
      sessionGeneration := sessionGeneration + 1;
      refreshKey, refreshShared := None, None;
      saved := None;
      jobs := jobs + [Job(Delete(|refreshes|), Queued)];
    }
  }
}
