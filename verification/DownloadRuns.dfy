/** What the invariant gives over whole runs of the download protocol. */
module DownloadRuns {
  import opened Options
  import opened DownloadModel
  import opened DownloadInvariant

  ghost predicate Run(s: State, events: seq<Event>)
    decreases |events|
  {
    events == [] || (Enabled(s, events[0]) && Run(Apply(s, events[0]), events[1..]))
  }

  ghost function End(s: State, events: seq<Event>): State
    requires Run(s, events)
    decreases |events|
  {
    if events == [] then s else End(Apply(s, events[0]), events[1..])
  }

  /** `events` lead from `s` to `t`. */
  ghost predicate Leads(s: State, events: seq<Event>, t: State) { Run(s, events) && End(s, events) == t }

  lemma {:induction false} RunKeeps(s: State, events: seq<Event>)
    requires Inv(s) && Run(s, events)
    ensures Inv(End(s, events))
    decreases |events|
  {
    if events != [] {
      KeepsStep(s, events[0]);
      RunKeeps(Apply(s, events[0]), events[1..]);
    }
  }

  // ---- rows and files -----------------------------------------------------------------

  /**
   After any run, restarts included: rows of different keys never share a directory, and a row's file is missing
   exactly when a remove or a clear of its host deleted it and that operation is still at the row or failed there.
   */
  lemma RowsAgreeWithFiles(events: seq<Event>, k: Key, k': Key)
    requires Run(Fresh(), events) && k in End(Fresh(), events).rows && k' in End(Fresh(), events).rows
    ensures var s := End(Fresh(), events);
      && (k != k' ==> s.rows[k].uri.dir != s.rows[k'].uri.dir)
      && (s.rows[k].uri !in s.files <==> Condemned(s, s.rows[k].uri, k.host))
  {
    FreshIsFine();
    RunKeeps(Fresh(), events);
    var s := End(Fresh(), events);
    assert Registered(s, s.rows[k].uri, k) && Registered(s, s.rows[k'].uri, k');
  }

  /**
   Whatever a reconcile deletes, no row lies inside and no running save writes there; a whole one keeps only
   directories that are active or held a row when it read the table.
   */
  lemma ReconcileSparesWhatIsUsed(events: seq<Event>, i: nat, victims: set<nat>, ok: bool)
    requires Run(Fresh(), events)
    requires var s := End(Fresh(), events); i < |s.ops| && ListEnabled(s, i, Visit(victims, ok))
    ensures var s := End(Fresh(), events);
      && (forall k :: k in s.rows ==> s.rows[k].uri.dir !in victims)
      && (forall j :: 0 <= j < |s.ops| && s.ops[j].phase.Saving? ==> s.ops[j].phase.a.dir !in victims)
      && (ok ==> forall d :: d in s.dirs - victims ==>
            d in s.active || exists u :: u in s.ops[i].phase.retained && u.dir == d)
  {
    FreshIsFine();
    RunKeeps(Fresh(), events);
    var s := End(Fresh(), events);
    assert OpOk(s, i);
    VisitSparesOwned(s, i, victims, ok);
    if ok {
      forall d | d in s.dirs - victims
        ensures d in s.active || exists u :: u in s.ops[i].phase.retained && u.dir == d
      {
        assert !Unowned(s, s.ops[i].phase.retained, d);
      }
    }
    forall j | 0 <= j < |s.ops| && s.ops[j].phase.Saving?
      ensures s.ops[j].phase.a.dir !in victims
    {
      assert OpOk(s, j);
    }
  }

  // ---- what a step writes ------------------------------------------------------------

  predicate Concerns(e: Event, i: nat) {
    match e
    case AwaitFails(j) => i == j
    case OfSave(j, _) => i == j
    case OfDrop(j, _) => i == j
    case OfList(j, _) => i == j
    case _ => false
  }

  /** A step of operation `j` writes that operation's phase and no other. */
  ghost predicate WritesOnly(s: State, t: State, j: nat)
    requires j < |s.ops|
  {
    && |t.ops| == |s.ops|
    && (forall i :: 0 <= i < |s.ops| && i != j ==> t.ops[i] == s.ops[i])
    && t.ops[j].call == s.ops[j].call && t.ops[j].generation == s.ops[j].generation && t.ops[j].cancelled == s.ops[j].cancelled
  }

  predicate BeforePublication(e: SaveEvent) {
    e.StartSave? || e.RowIsRead? || e.BeginAttempt? || e.TransferDone? || e.CheckTransfer? || e.MoveDone? || e.Enqueue?
  }

  lemma StagedStepWrites(s: State, j: nat, e: SaveEvent)
    requires j < |s.ops| && s.ops[j].call.Save? && SaveEnabled(s, j, e) && BeforePublication(e)
    ensures WritesOnly(s, SaveStep(s, j, e), j)
  {
  }

  lemma PublishedStepWrites(s: State, j: nat, e: SaveEvent)
    requires j < |s.ops| && s.ops[j].call.Save? && SaveEnabled(s, j, e) && !BeforePublication(e)
    ensures WritesOnly(s, SaveStep(s, j, e), j)
  {
  }

  lemma DropStepWrites(s: State, j: nat, e: DropEvent)
    requires IsDrop(s, j) && DropEnabled(s, j, e)
    ensures WritesOnly(s, DropStep(s, j, e), j)
  {
  }

  lemma ListStepWrites(s: State, j: nat, e: ListEvent)
    requires j < |s.ops| && ListEnabled(s, j, e)
    ensures WritesOnly(s, ListStep(s, j, e), j)
  {
  }

  lemma StepWrites(s: State, e: Event, j: nat)
    requires Enabled(s, e) && j < |s.ops| && Concerns(e, j)
    ensures WritesOnly(s, Apply(s, e), j)
  {
    match e
    case OfSave(_, save) => if BeforePublication(save) { StagedStepWrites(s, j, save); } else { PublishedStepWrites(s, j, save); }
    case OfDrop(_, drop) => DropStepWrites(s, j, drop);
    case OfList(_, list) => ListStepWrites(s, j, list);
    case _ =>
  }

  /** What a step of another operation can do to operation `i`. */
  ghost predicate Untouched(s: State, t: State, i: nat)
    requires i < |s.ops|
  {
    && i < |t.ops| && t.ops[i].call == s.ops[i].call && t.ops[i].generation == s.ops[i].generation
    && (s.ops[i].cancelled ==> t.ops[i].cancelled)
    && (t.ops[i].phase == s.ops[i].phase || (!s.ops[i].phase.Settled? && t.ops[i].phase == Settled(false)))
  }

  lemma OthersLeaveIt(s: State, e: Event, i: nat)
    requires Enabled(s, e) && i < |s.ops| && !Concerns(e, i)
    ensures Untouched(s, Apply(s, e), i)
  {
    match e
    case OfSave(j, _) => StepWrites(s, e, j);
    case OfDrop(j, _) => StepWrites(s, e, j);
    case OfList(j, _) => StepWrites(s, e, j);
    case AwaitFails(j) => StepWrites(s, e, j);
    case _ =>
  }

  lemma {:induction false} SameCall(s: State, events: seq<Event>, i: nat)
    requires Run(s, events) && i < |s.ops|
    ensures i < |End(s, events).ops| && End(s, events).ops[i].call == s.ops[i].call
    decreases |events|
  {
    if events != [] {
      StepSameCall(s, events[0], i);
      SameCall(Apply(s, events[0]), events[1..], i);
    }
  }

  lemma StepSameCall(s: State, e: Event, i: nat)
    requires Enabled(s, e) && i < |s.ops|
    ensures i < |Apply(s, e).ops| && Apply(s, e).ops[i].call == s.ops[i].call
  {
    if Concerns(e, i) { StepWrites(s, e, i); } else { OthersLeaveIt(s, e, i); }
  }

  // ---- the host queue and host clears ------------------------------------------------------

  lemma OneHostOneOperation(events: seq<Event>, i: nat, j: nat)
    requires Run(Fresh(), events)
    requires var s := End(Fresh(), events);
      i < j < |s.ops| && SameHost(s.ops[i].call, s.ops[j].call) && !s.ops[j].phase.Queued?
    ensures End(Fresh(), events).ops[i].phase.Settled?
  {
    FreshIsFine();
    RunKeeps(Fresh(), events);
  }

  /** Rows of a host whose clear completed were all written by saves called after that clear. */
  lemma ClearedHostHasOnlyLaterRows(events: seq<Event>, c: nat, k: Key)
    requires Run(Fresh(), events)
    requires DoneClear(End(Fresh(), events), c, k.host) && k in End(Fresh(), events).rows
    ensures var s := End(Fresh(), events);
      var u := s.rows[k].uri;
      && u.dir in s.attempts && c < s.attempts[u.dir] < |s.ops|
      && s.ops[s.attempts[u.dir]].call.Save? && s.ops[s.attempts[u.dir]].call.key == k
  {
    FreshIsFine();
    RunKeeps(Fresh(), events);
    var s := End(Fresh(), events);
    assert AfterClears(s, s.rows[k].uri, k.host) && Registered(s, s.rows[k].uri, k);
  }

  /** At the step that completes a clear the host has no row at all. */
  lemma ClearEndsEmpty(s: State, i: nat, victims: set<nat>)
    requires Inv(s) && i < |s.ops| && s.ops[i].call.Clear? && ListEnabled(s, i, Visit(victims, true))
    ensures DoneClear(Visited(s, i, victims, true), i, s.ops[i].call.host)
    ensures NoRows(Visited(s, i, victims, true), s.ops[i].call.host)
  {
    assert OpOk(s, i);
  }

  /** A save that was cancelled before its publication settled well, or that failed. */
  predicate Withdrawn(s: State, i: nat) {
    && i < |s.ops| && s.ops[i].call.Save?
    && (if s.ops[i].phase.Settled? then !s.ops[i].phase.ok
        else s.ops[i].cancelled && !(s.ops[i].phase.Saving? && s.ops[i].phase.stage.Published?))
  }

  lemma SaveStepStaysWithdrawn(s: State, e: SaveEvent, i: nat)
    requires Withdrawn(s, i) && SaveEnabled(s, i, e)
    ensures Withdrawn(SaveStep(s, i, e), i)
  {
  }

  lemma StepStaysWithdrawn(s: State, e: Event, i: nat)
    requires Enabled(s, e) && Withdrawn(s, i) && OpOk(s, i)
    ensures Withdrawn(Apply(s, e), i)
  {
    if !Concerns(e, i) {
      OthersLeaveIt(s, e, i);
    } else if e.OfSave? {
      SaveStepStaysWithdrawn(s, e.save, i);
    }
  }

  lemma {:induction false} RunStaysWithdrawn(s: State, events: seq<Event>, i: nat)
    requires Inv(s) && Run(s, events) && Withdrawn(s, i)
    ensures Withdrawn(End(s, events), i)
    decreases |events|
  {
    if events != [] {
      assert OpOk(s, i);
      StepStaysWithdrawn(s, events[0], i);
      KeepsStep(s, events[0]);
      RunStaysWithdrawn(Apply(s, events[0]), events[1..], i);
    }
  }

  /** A clear beats every save of its host still under way: none of them reports success afterwards. */
  lemma ClearBeatsRunningSaves(s: State, host: string, i: nat, events: seq<Event>)
    requires Inv(s) && Run(CalledClear(s, host), events)
    requires i < |s.ops| && s.ops[i].call.Save? && s.ops[i].call.key.host == host && !s.ops[i].phase.Settled?
    requires !(s.ops[i].phase.Saving? && s.ops[i].phase.stage.Published?)
    ensures Withdrawn(End(CalledClear(s, host), events), i)
    ensures End(CalledClear(s, host), events).ops[i].phase != Settled(true)
  {
    KeepsCallClear(s, host);
    RunStaysWithdrawn(CalledClear(s, host), events, i);
  }

  // ---- no deadlock ---------------------------------------------------------------------------

  /** A step of the module itself or the completion of a request it issued. */
  predicate OwnStep(e: Event) { e.OfSave? || e.OfDrop? || e.OfList? || e.AwaitFails? }

  lemma PhaseCanMove(s: State, i: nat) returns (e: Event)
    requires i < |s.ops| && OpOk(s, i) && !s.ops[i].phase.Settled? && !s.ops[i].phase.Queued? && !Waiting(s.ops[i].phase)
    ensures Enabled(s, e) && OwnStep(e)
  {
    var p := s.ops[i].phase;
    if Awaiting(p) {
      e := AwaitFails(i);
    } else if p.Saving? {
      match p.stage
      case Transferred => e := OfSave(i, CheckTransfer(false, MEDIA));
      case Moved => e := OfSave(i, Enqueue);
      case Inserted(_) => e := OfSave(i, AfterInsert(false));
      case Restored => e := OfSave(i, AfterRestore);
      case Published(_) => e := OfSave(i, FinishSave);
      case Failing(_) => e := OfSave(i, Cleanup(false));
    } else {
      e := OfList(i, ListCheck);
    }
  }

  lemma TicketCanStart(s: State, i: nat) returns (e: Event)
    requires i < |s.ops| && Waiting(s.ops[i].phase) && AtTurn(s, TicketOf(s.ops[i].phase)) && OpOk(s, i)
    ensures Enabled(s, e) && OwnStep(e)
  {
    e := if s.ops[i].phase.Saving? then OfSave(i, StartPublication(0, 0)) else OfList(i, StartReconcile);
  }

  lemma {:induction false} FirstUnsettled(s: State, n: nat) returns (i: nat)
    requires n < |s.ops| && !s.ops[n].phase.Settled?
    ensures i < |s.ops| && !s.ops[i].phase.Settled? && forall j :: 0 <= j < i ==> s.ops[j].phase.Settled?
  {
    i := n;
    if m :| 0 <= m < n && !s.ops[m].phase.Settled? { i := FirstUnsettled(s, m); }
  }

  /** The host queues and the publication queue never deadlock, although a clear waits in both. */
  lemma SomeoneCanMove(s: State, n: nat) returns (e: Event)
    requires Inv(s) && n < |s.ops| && !s.ops[n].phase.Settled?
    ensures Enabled(s, e) && OwnStep(e)
  {
    var i := FirstUnsettled(s, n);
    assert OpOk(s, i);
    if s.ops[i].phase.Queued? {
      e := if s.ops[i].call.Save? then OfSave(i, StartSave) else OfDrop(i, StartDrop);
    } else if !Waiting(s.ops[i].phase) {
      e := PhaseCanMove(s, i);
    } else if s.holder.Some? {
      assert OpOk(s, s.holder.value);
      e := PhaseCanMove(s, s.holder.value);
    } else {
      assert OpOk(s, s.tickets[s.served]);
      e := TicketCanStart(s, s.tickets[s.served]);
    }
  }

  // ---- a row can outlive its file ----------------------------------------------------------------

  ghost predicate Reaches(t: State) { exists events :: Run(Fresh(), events) && End(Fresh(), events) == t }

  lemma {:induction false} RunOn(s: State, events: seq<Event>, e: Event)
    requires Run(s, events) && Enabled(End(s, events), e)
    ensures Run(s, events + [e]) && End(s, events + [e]) == Apply(End(s, events), e)
    decreases |events|
  {
    if events == [] {
      assert [e][1..] == [];
    } else {
      assert (events + [e])[1..] == events[1..] + [e];
      RunOn(Apply(s, events[0]), events[1..], e);
    }
  }

  lemma ReachesNext(s: State, e: Event)
    requires Reaches(s) && Enabled(s, e)
    ensures Reaches(Apply(s, e))
  {
    var events :| Run(Fresh(), events) && End(Fresh(), events) == s;
    RunOn(Fresh(), events, e);
  }

  const KEY := Key("host", "profile", "movie")
  const FILE := Uri(0, MEDIA)

  lemma ReadSave() returns (s: State)
    ensures Reaches(s) && s == Fresh().(ops := [Op(Save(KEY, "title"), 0, false, RowRead(None))])
  {
    assert Run(Fresh(), []);
    s := Fresh();
    ReachesNext(s, CallSave(KEY, "title"));
    s := Called(s, Save(KEY, "title"), 0, Queued);
    ReachesNext(s, OfSave(0, StartSave));
    s := SaveStarted(s, 0);
    ReachesNext(s, OfSave(0, RowIsRead));
    s := RowFound(s, 0);
  }

  lemma StagedSave() returns (s: State)
    ensures Reaches(s)
    ensures s == Fresh().(ops := [Op(Save(KEY, "title"), 0, false, Saving(Attempt(0, FILE, None), Transferred))],
                          dirs := {0}, active := {0}, attempts := map[0 := 0], files := {FILE})
  {
    s := ReadSave();
    ReachesNext(s, OfSave(0, BeginAttempt(0)));
    s := Begun(s, 0, 0);
    ReachesNext(s, OfSave(0, TransferDone));
    s := TransferArrived(s, 0);
  }

  lemma RunningPublication() returns (s: State)
    ensures Reaches(s) && |s.ops| == 1 && s.ops[0].call == Save(KEY, "title") && Current(s, 0)
    ensures s.ops[0].phase == Saving(Attempt(0, FILE, None), Inserting(Row("title", FILE, 1, 1)))
    ensures FILE in s.files && s.attempts == map[0 := 0]
  {
    s := StagedSave();
    ReachesNext(s, OfSave(0, CheckTransfer(true, MEDIA)));
    s := TransferChecked(s, 0, true, MEDIA);
    ReachesNext(s, OfSave(0, StartPublication(1, 1)));
    s := PublicationStarted(s, 0, 1, 1);
  }

  lemma InsertedSave() returns (s: State)
    ensures Reaches(s) && |s.ops| == 1 && s.ops[0].call == Save(KEY, "title") && Current(s, 0)
    ensures s.ops[0].phase == Saving(Attempt(0, FILE, None), Inserted(Row("title", FILE, 1, 1)))
    ensures FILE in s.files && s.attempts == map[0 := 0] && 0 in s.published && KEY in s.rows && s.rows[KEY].uri == FILE
  {
    s := RunningPublication();
    ReachesNext(s, OfSave(0, InsertDone));
    s := RowInserted(s, 0);
  }

  lemma FinishedSave() returns (s: State)
    ensures Reaches(s)
    ensures |s.ops| == 1 && s.ops[0].call == Save(KEY, "title") && s.ops[0].phase == Settled(true)
    ensures KEY in s.rows && s.rows[KEY].uri == FILE && FILE in s.files && 0 in s.published && s.attempts == map[0 := 0]
  {
    s := InsertedSave();
    ReachesNext(s, OfSave(0, AfterInsert(false)));
    s := InsertChecked(s, 0, false);
    ReachesNext(s, OfSave(0, FinishSave));
    s := SaveFinished(s, 0);
  }

  lemma RemoveAtItsFile() returns (s: State)
    ensures Reaches(s) && |s.ops| == 2 && s.ops[0].phase == Settled(true)
    ensures s.ops[1].call == Remove(KEY, FILE) && s.ops[1].phase == Dropping([FILE])
    ensures KEY in s.rows && s.rows[KEY].uri == FILE && FILE in s.files
  {
    s := FinishedSave();
    ReachesNext(s, CallRemove(KEY, FILE));
    s := Called(s, Remove(KEY, FILE), 0, Queued);
    ReachesNext(s, OfDrop(1, StartDrop));
    s := DropStarted(s, 1);
  }

  /** A remove whose row deletion fails leaves a row without a file, with nothing running. */
  lemma FailedRemoveStrandsTheRow() returns (s: State)
    ensures Reaches(s)
    ensures forall i :: 0 <= i < |s.ops| ==> s.ops[i].phase.Settled?
    ensures KEY in s.rows && s.rows[KEY].uri !in s.files
  {
    s := RemoveAtItsFile();
    ReachesNext(s, OfDrop(1, DropFile(true)));
    s := FileDropped(s, 1, true);
    ReachesNext(s, AwaitFails(1));
    s := Fail(s, 1);
  }
}
