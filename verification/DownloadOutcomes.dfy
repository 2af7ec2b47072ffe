/** When downloads succeed: a save fails only for a reason, and undisturbed operations do what they are called for. */
module DownloadOutcomes {
  import opened Options
  import opened DownloadModel
  import opened DownloadInvariant
  import opened DownloadRuns

  // ---- a save fails only for a reason ----------------------------------------------------

  /** A save on its way to its catch block, or settled badly. */
  predicate Failed(p: Phase) {
    p == Settled(false) || (p.Saving? && (p.stage.Failing? || p.stage.Restoring? || p.stage.Restored?))
  }

  /** Nothing speaks against save `i`. */
  predicate Blameless(s: State, i: nat) {
    && i < |s.ops| && s.ops[i].call.Save? && !Failed(s.ops[i].phase)
    && !s.ops[i].cancelled && s.ops[i].generation == Generation(s, s.ops[i].call.key.host)
  }

  /**
   What may stop save `i` of the host: it is cancelled, its host is cleared, its transfer is refused, a request of it
   rejects, or the process restarts.
   */
  predicate Stops(e: Event, i: nat, host: string) {
    match e
    case Cancel(j) => i == j
    case CallClear(h) => h == host
    case Restart => true
    case AwaitFails(j) => i == j
    case OfSave(j, save) => i == j && save.CheckTransfer? && !save.accepted
    case _ => false
  }

  lemma StagedStepGoesOn(s: State, i: nat, e: SaveEvent)
    requires Blameless(s, i) && SaveEnabled(s, i, e) && BeforePublication(e) && !(e.CheckTransfer? && !e.accepted)
    ensures Blameless(SaveStep(s, i, e), i)
  {
  }

  lemma PublishedStepGoesOn(s: State, i: nat, e: SaveEvent)
    requires Blameless(s, i) && SaveEnabled(s, i, e) && !BeforePublication(e)
    ensures Blameless(SaveStep(s, i, e), i)
  {
  }

  lemma DropStepLeavesSaves(s: State, j: nat, e: DropEvent, i: nat)
    requires IsDrop(s, j) && DropEnabled(s, j, e) && Blameless(s, i)
    ensures Blameless(DropStep(s, j, e), i)
  {
  }

  lemma GenerationStays(s: State, e: Event, host: string)
    requires Enabled(s, e) && e != CallClear(host) && !e.Restart? && !e.OfSave? && !e.OfDrop? && !e.OfList?
    ensures Generation(Apply(s, e), host) == Generation(s, host)
  {
  }

  lemma ListStepLeavesSaves(s: State, j: nat, e: ListEvent, i: nat)
    requires j < |s.ops| && ListEnabled(s, j, e) && Blameless(s, i) && i != j
    ensures Blameless(ListStep(s, j, e), i)
  {
  }

  lemma OtherSaveStepLeavesSave(s: State, j: nat, e: SaveEvent, i: nat)
    requires j < |s.ops| && s.ops[j].call.Save? && SaveEnabled(s, j, e) && Blameless(s, i) && i != j
    ensures Blameless(SaveStep(s, j, e), i)
  {
  }

  lemma CallLeavesSave(s: State, e: Event, i: nat)
    requires Enabled(s, e) && Blameless(s, i) && !Concerns(e, i) && !Stops(e, i, s.ops[i].call.key.host)
    requires !e.OfSave? && !e.OfDrop? && !e.OfList?
    ensures Blameless(Apply(s, e), i)
  {
    GenerationStays(s, e, s.ops[i].call.key.host);
  }

  lemma StepGoesOn(s: State, e: Event, i: nat)
    requires OpsOk(s) && Enabled(s, e) && Blameless(s, i) && !Stops(e, i, s.ops[i].call.key.host)
    ensures Blameless(Apply(s, e), i)
  {
    if Concerns(e, i) && e.OfSave? {
      if BeforePublication(e.save) { StagedStepGoesOn(s, i, e.save); } else { PublishedStepGoesOn(s, i, e.save); }
    } else if Concerns(e, i) {
      assert OpOk(s, i);
    } else if e.OfSave? {
      OtherSaveStepLeavesSave(s, e.i, e.save, i);
    } else if e.OfDrop? {
      DropStepLeavesSaves(s, e.i, e.drop, i);
    } else if e.OfList? {
      ListStepLeavesSaves(s, e.i, e.list, i);
    } else {
      CallLeavesSave(s, e, i);
    }
  }

  lemma {:induction false} RunGoesOn(s: State, events: seq<Event>, i: nat)
    requires Inv(s) && Run(s, events) && Blameless(s, i)
    requires forall e :: e in events ==> !Stops(e, i, s.ops[i].call.key.host)
    ensures Blameless(End(s, events), i)
    decreases |events|
  {
    if events != [] {
      StepGoesOn(s, events[0], i);
      StepSameCall(s, events[0], i);
      KeepsStep(s, events[0]);
      assert forall e :: e in events[1..] ==> e in events;
      RunGoesOn(Apply(s, events[0]), events[1..], i);
    }
  }

  /**
   In every run: a save that has failed, or is about to, was cancelled or refused, lost a request, was cut off by a
   restart, or its host was cleared, at some step after its call.
   */
  lemma SaveFailsOnlyForAReason(before: seq<Event>, key: Key, title: string, after: seq<Event>)
    requires Run(Fresh(), before)
    requires Run(Apply(End(Fresh(), before), CallSave(key, title)), after)
    ensures
      var s := End(Fresh(), before);
      var t := End(Apply(s, CallSave(key, title)), after);
      && |s.ops| < |t.ops| && t.ops[|s.ops|].call == Save(key, title)
      && (Failed(t.ops[|s.ops|].phase) ==> exists e :: e in after && Stops(e, |s.ops|, key.host))
  {
    var s := End(Fresh(), before);
    var called := Apply(s, CallSave(key, title));
    FreshIsFine();
    RunKeeps(Fresh(), before);
    KeepsStep(s, CallSave(key, title));
    SameCall(called, after, |s.ops|);
    if forall e :: e in after ==> !Stops(e, |s.ops|, key.host) { RunGoesOn(called, after, |s.ops|); }
  }

  // ---- and for every reason -----------------------------------------------------------------

  /** `e` stops save `i` here: before its row is checked for the last time, or a restart before it settles. */
  predicate StoppedAt(s: State, e: Event, i: nat)
    requires i < |s.ops| && s.ops[i].call.Save?
  {
    var p := s.ops[i].phase;
    Stops(e, i, s.ops[i].call.key.host) && !p.Settled? && (p.Saving? && p.stage.Published? ==> e.Restart?)
  }

  ghost predicate EverStopped(s: State, events: seq<Event>, i: nat)
    requires i < |s.ops| && s.ops[i].call.Save? && Run(s, events)
    decreases |events|
  {
    && events != []
    && (StoppedAt(s, events[0], i)
        || (StepSameCall(s, events[0], i);
            EverStopped(Apply(s, events[0]), events[1..], i)))
  }

  /** Nothing speaks against save `i`, or it has passed its last check. */
  predicate Hopeful(s: State, i: nat) {
    && i < |s.ops| && s.ops[i].call.Save?
    && (Blameless(s, i) || s.ops[i].phase == Settled(true) || (s.ops[i].phase.Saving? && s.ops[i].phase.stage.Published?))
  }

  predicate Hopeless(s: State, i: nat) {
    i < |s.ops| && s.ops[i].call.Save? && (Failed(s.ops[i].phase) || Withdrawn(s, i))
  }

  lemma FailedSaveStepStays(s: State, i: nat, e: SaveEvent)
    requires i < |s.ops| && s.ops[i].call.Save? && SaveEnabled(s, i, e) && Failed(s.ops[i].phase)
    ensures Failed(SaveStep(s, i, e).ops[i].phase)
  {
  }

  lemma StaysHopeless(s: State, e: Event, i: nat)
    requires Enabled(s, e) && Hopeless(s, i) && OpOk(s, i)
    ensures Hopeless(Apply(s, e), i)
  {
    StepSameCall(s, e, i);
    if Withdrawn(s, i) {
      StepStaysWithdrawn(s, e, i);
    } else if !Concerns(e, i) {
      OthersLeaveIt(s, e, i);
    } else if e.OfSave? {
      FailedSaveStepStays(s, i, e.save);
    }
  }

  lemma StopsForGood(s: State, e: Event, i: nat)
    requires Enabled(s, e) && i < |s.ops| && s.ops[i].call.Save? && StoppedAt(s, e, i) && OpOk(s, i)
    ensures Hopeless(Apply(s, e), i)
  {
    StepSameCall(s, e, i);
  }

  lemma PassedSaveStepStays(s: State, i: nat, e: SaveEvent)
    requires i < |s.ops| && s.ops[i].call.Save? && SaveEnabled(s, i, e) && s.ops[i].phase.Saving? && s.ops[i].phase.stage.Published?
    ensures SaveStep(s, i, e).ops[i].phase == Settled(true)
  {
  }

  lemma PassedStays(s: State, e: Event, i: nat)
    requires Enabled(s, e) && i < |s.ops| && s.ops[i].call.Save? && OpOk(s, i)
    requires s.ops[i].phase.Saving? && s.ops[i].phase.stage.Published? && !e.Restart?
    ensures Hopeful(Apply(s, e), i)
  {
    StepSameCall(s, e, i);
    if Concerns(e, i) && e.OfSave? {
      PassedSaveStepStays(s, i, e.save);
    } else if e.OfSave? || e.OfDrop? || e.OfList? || e.AwaitFails? {
      StepWrites(s, e, e.i);
    }
  }

  lemma SettledStays(s: State, e: Event, i: nat)
    requires Enabled(s, e) && i < |s.ops| && s.ops[i].call.Save? && s.ops[i].phase.Settled?
    ensures i < |Apply(s, e).ops| && Apply(s, e).ops[i].call == s.ops[i].call && Apply(s, e).ops[i].phase == s.ops[i].phase
  {
    StepSameCall(s, e, i);
    if !Concerns(e, i) { OthersLeaveIt(s, e, i); }
  }

  lemma StaysHopeful(s: State, e: Event, i: nat)
    requires OpsOk(s) && Enabled(s, e) && Hopeful(s, i) && !StoppedAt(s, e, i)
    ensures Hopeful(Apply(s, e), i)
  {
    assert OpOk(s, i);
    if s.ops[i].phase.Settled? {
      SettledStays(s, e, i);
    } else if s.ops[i].phase.Saving? && s.ops[i].phase.stage.Published? {
      PassedStays(s, e, i);
    } else {
      StepGoesOn(s, e, i);
    }
  }

  lemma {:induction false} HopelessNeverResolves(s: State, events: seq<Event>, i: nat)
    requires Inv(s) && Run(s, events) && Hopeless(s, i)
    ensures i < |End(s, events).ops| && End(s, events).ops[i].phase != Settled(true)
    decreases |events|
  {
    if events != [] {
      assert OpOk(s, i);
      StaysHopeless(s, events[0], i);
      KeepsStep(s, events[0]);
      HopelessNeverResolves(Apply(s, events[0]), events[1..], i);
    }
  }

  lemma {:induction false} ResolvesUnlessStopped(s: State, events: seq<Event>, i: nat)
    requires Inv(s) && Run(s, events) && Hopeful(s, i)
    requires i < |End(s, events).ops| && End(s, events).ops[i].phase.Settled?
    ensures End(s, events).ops[i].phase == Settled(true) <==> !EverStopped(s, events, i)
    decreases |events|
  {
    if events != [] {
      assert OpOk(s, i);
      KeepsStep(s, events[0]);
      StepSameCall(s, events[0], i);
      if StoppedAt(s, events[0], i) {
        StopsForGood(s, events[0], i);
        HopelessNeverResolves(Apply(s, events[0]), events[1..], i);
      } else {
        StaysHopeful(s, events[0], i);
        ResolvesUnlessStopped(Apply(s, events[0]), events[1..], i);
      }
    }
  }

  /**
   In every run: a save that has settled resolved if and only if nothing stopped it.  What stops it is a cancellation
   or a clear of its host before its last check, a refused transfer, a rejected request, or a restart.
   */
  lemma SaveResolvesExactly(before: seq<Event>, key: Key, title: string, after: seq<Event>)
    requires Run(Fresh(), before)
    requires Run(Apply(End(Fresh(), before), CallSave(key, title)), after)
    ensures
      var s := End(Fresh(), before);
      var called := Apply(s, CallSave(key, title));
      var t := End(called, after);
      && |s.ops| < |t.ops| && t.ops[|s.ops|].call == Save(key, title)
      && (t.ops[|s.ops|].phase.Settled? ==>
            (t.ops[|s.ops|].phase == Settled(true) <==> !EverStopped(called, after, |s.ops|)))
  {
    var s := End(Fresh(), before);
    var called := Apply(s, CallSave(key, title));
    FreshIsFine();
    RunKeeps(Fresh(), before);
    KeepsStep(s, CallSave(key, title));
    SameCall(called, after, |s.ops|);
    if End(called, after).ops[|s.ops|].phase.Settled? { ResolvesUnlessStopped(called, after, |s.ops|); }
  }

  /** The steps that look whether the save is still wanted. */
  predicate Looks(e: SaveEvent) {
    e.StartSave? || e.BeginAttempt? || e.CheckTransfer? || e.Enqueue? || e.StartPublication? || e.AfterInsert?
  }

  /** Wherever a save looks, a cancelled or outdated one stops at once: it touches no row and no file, and only a written row is restored. */
  lemma StaleSaveStops(s: State, i: nat, e: SaveEvent)
    requires i < |s.ops| && s.ops[i].call.Save? && SaveEnabled(s, i, e) && Looks(e)
    requires s.ops[i].cancelled || s.ops[i].generation != Generation(s, s.ops[i].call.key.host)
    ensures
      var t := SaveStep(s, i, e);
      && Failed(t.ops[i].phase) && (e.AfterInsert? <==> t.ops[i].phase.Saving? && t.ops[i].phase.stage.Restoring?)
      && t.rows == s.rows && t.files == s.files && t.dirs == s.dirs
  {
  }

  // ---- active directories ----------------------------------------------------------------------

  predicate SavingIn(s: State, d: nat) {
    && d in s.attempts && s.attempts[d] < |s.ops|
    && s.ops[s.attempts[d]].phase.Saving? && s.ops[s.attempts[d]].phase.a.dir == d
  }

  /** A directory is active only while the save that made it is under way. */
  ghost predicate ActiveOk(s: State) { forall d :: d in s.active ==> SavingIn(s, d) }

  lemma SaveStepKeepsActive(s: State, j: nat, e: SaveEvent)
    requires j < |s.ops| && s.ops[j].call.Save? && SaveEnabled(s, j, e) && ActiveOk(s)
    ensures ActiveOk(SaveStep(s, j, e))
  {
  }

  lemma DropStepKeepsActive(s: State, j: nat, e: DropEvent)
    requires IsDrop(s, j) && DropEnabled(s, j, e) && ActiveOk(s)
    ensures ActiveOk(DropStep(s, j, e))
  {
  }

  lemma ListStepKeepsActive(s: State, j: nat, e: ListEvent)
    requires j < |s.ops| && ListEnabled(s, j, e) && ActiveOk(s)
    ensures ActiveOk(ListStep(s, j, e))
  {
  }

  lemma CallKeepsActive(s: State, e: Event)
    requires Enabled(s, e) && !e.OfSave? && !e.OfDrop? && !e.OfList? && ActiveOk(s)
    ensures ActiveOk(Apply(s, e))
  {
  }

  lemma {:induction false} RunKeepsActive(s: State, events: seq<Event>)
    requires Run(s, events) && ActiveOk(s)
    ensures ActiveOk(End(s, events))
    decreases |events|
  {
    if events != [] {
      match events[0] {
        case OfSave(j, e) => SaveStepKeepsActive(s, j, e);
        case OfDrop(j, e) => DropStepKeepsActive(s, j, e);
        case OfList(j, e) => ListStepKeepsActive(s, j, e);
        case _ => CallKeepsActive(s, events[0]);
      }
      RunKeepsActive(Apply(s, events[0]), events[1..]);
    }
  }

  // ---- undisturbed operations ----------------------------------------------------------------

  predicate AllSettled(s: State) { forall i :: 0 <= i < |s.ops| ==> s.ops[i].phase.Settled? }

  lemma QueueIsIdle(s: State)
    requires Tickets(s) && AllSettled(s)
    ensures s.holder.None? && s.served == s.issued
  {
    assert s.served < s.issued ==> s.served in s.tickets;
  }

  lemma LeadsOn(s: State, events: seq<Event>, t: State, e: Event)
    requires Leads(s, events, t) && Enabled(t, e)
    ensures Leads(s, events + [e], Apply(t, e))
  {
    RunOn(s, events, e);
  }

  /** The save that comes next, in some phase, with nothing else changed. */
  function Next(s: State, key: Key, title: string, p: Phase): Op { Op(Save(key, title), Generation(s, key.host), false, p) }

  function Transfer(s: State, key: Key, title: string, dir: nat): seq<Event> {
    [CallSave(key, title), OfSave(|s.ops|, StartSave), OfSave(|s.ops|, RowIsRead), OfSave(|s.ops|, BeginAttempt(dir)), OfSave(|s.ops|, TransferDone)]
  }

  /** A file that got its name from the server is moved before it is published. */
  function Naming(i: nat, name: string): seq<Event> {
    [OfSave(i, CheckTransfer(true, name))] + if name == "media" then [] else [OfSave(i, MoveDone), OfSave(i, SaveEvent.Enqueue)]
  }

  function Publication(i: nat, size: int, now: int, oldDeleted: bool): seq<Event> {
    [OfSave(i, StartPublication(size, now)), OfSave(i, InsertDone), OfSave(i, AfterInsert(oldDeleted)), OfSave(i, FinishSave)]
  }

  /** The state of a save that runs alone: its own phase and file, the publication queue, and the table. */
  function Alone(s: State, key: Key, title: string, dir: nat, p: Phase, file: Uri): State {
    s.(ops := s.ops + [Next(s, key, title, p)], dirs := s.dirs + {dir}, active := s.active + {dir},
       attempts := s.attempts[dir := |s.ops|], files := s.files + {file})
  }

  lemma SaveCalls(s: State, key: Key, title: string) returns (t: State)
    requires AllSettled(s)
    ensures t == s.(ops := s.ops + [Next(s, key, title, RowRead(if key in s.rows then Some(s.rows[key]) else None))])
    ensures Leads(s, [CallSave(key, title), OfSave(|s.ops|, StartSave), OfSave(|s.ops|, RowIsRead)], t)
  {
    var i := |s.ops|;
    var call, start, read := CallSave(key, title), OfSave(i, StartSave), OfSave(i, RowIsRead);
    assert Leads(s, [], s);
    LeadsOn(s, [], s, call);
    t := Apply(s, call);
    assert [] + [call] == [call];
    LeadsOn(s, [call], t, start);
    t := s.(ops := s.ops + [Next(s, key, title, ReadingRow)]);
    assert t == Apply(Apply(s, call), start);
    assert [call] + [start] == [call, start];
    LeadsOn(s, [call, start], t, read);
    t := RowFound(t, i);
    assert [call, start] + [read] == [call, start, read];
  }

  function Found(s: State, key: Key): Option<Row> { if key in s.rows then Some(s.rows[key]) else None }

  lemma SaveBegins(s: State, key: Key, title: string, dir: nat) returns (t: State)
    requires AllSettled(s) && dir !in s.attempts
    ensures t == Alone(s, key, title, dir, Saving(Attempt(dir, Uri(dir, "media"), Found(s, key)), Transferring), Uri(dir, "media")).(files := s.files)
    ensures Leads(s, Transfer(s, key, title, dir)[..4], t)
  {
    var i := |s.ops|;
    var first := [CallSave(key, title), OfSave(i, StartSave), OfSave(i, RowIsRead)];
    t := SaveCalls(s, key, title);
    LeadsOn(s, first, t, OfSave(i, BeginAttempt(dir)));
    BegunShape(s, key, title, dir);
    t := Begun(t, i, dir);
    assert first + [OfSave(i, BeginAttempt(dir))] == Transfer(s, key, title, dir)[..4];
  }

  lemma SaveTransfers(s: State, key: Key, title: string, dir: nat) returns (t: State)
    requires AllSettled(s) && dir !in s.attempts
    ensures t == Alone(s, key, title, dir, Saving(Attempt(dir, Uri(dir, "media"), Found(s, key)), Transferred), Uri(dir, "media"))
    ensures Leads(s, Transfer(s, key, title, dir), t)
  {
    var i := |s.ops|;
    var first := Transfer(s, key, title, dir)[..4];
    t := SaveBegins(s, key, title, dir);
    LeadsOn(s, first, t, OfSave(i, TransferDone));
    t := TransferArrived(t, i);
    assert first + [OfSave(i, TransferDone)] == Transfer(s, key, title, dir);
  }

  lemma BegunShape(s: State, key: Key, title: string, dir: nat)
    ensures Begun(s.(ops := s.ops + [Next(s, key, title, RowRead(Found(s, key)))]), |s.ops|, dir) ==
      Alone(s, key, title, dir, Saving(Attempt(dir, Uri(dir, "media"), Found(s, key)), Transferring), Uri(dir, "media")).(files := s.files)
  {
    var r := s.(ops := s.ops + [Next(s, key, title, RowRead(Found(s, key)))]);
    assert Current(r, |s.ops|);
    assert Begun(r, |s.ops|, dir).attempts == s.attempts[dir := |s.ops|];
  }

  /** The file has its final name and the save waits for its publication. */
  function ToBePublished(s: State, key: Key, title: string, dir: nat, name: string): State {
    Alone(s, key, title, dir, Saving(Attempt(dir, Uri(dir, name), Found(s, key)), Publishing(s.issued)), Uri(dir, name))
      .(issued := s.issued + 1, tickets := s.tickets[s.issued := |s.ops|])
  }

  lemma SaveIsNamed(s: State, key: Key, title: string, dir: nat, name: string) returns (t: State)
    requires Disk(s) && AllSettled(s) && dir !in s.attempts
    ensures t == ToBePublished(s, key, title, dir, name)
    ensures Leads(s, Transfer(s, key, title, dir) + Naming(|s.ops|, name), t)
  {
    var i, first := |s.ops|, Transfer(s, key, title, dir);
    t := SaveTransfers(s, key, title, dir);
    var check := OfSave(i, CheckTransfer(true, name));
    LeadsOn(s, first, t, check);
    t := Apply(t, check);
    if name != "media" {
      t := SaveMoves(s, key, title, dir, name, first + [check], t);
      assert first + [check] + [OfSave(i, MoveDone)] + [OfSave(i, SaveEvent.Enqueue)] == first + Naming(i, name);
    } else {
      assert first + [check] == first + Naming(i, name);
    }
  }

  lemma SaveMoves(s: State, key: Key, title: string, dir: nat, name: string, events: seq<Event>, from: State) returns (t: State)
    requires Disk(s) && dir !in s.attempts && Leads(s, events, from)
    requires from == Alone(s, key, title, dir, Saving(Attempt(dir, Uri(dir, "media"), Found(s, key)), Moving(Uri(dir, name))), Uri(dir, "media"))
    ensures t == ToBePublished(s, key, title, dir, name)
    ensures Leads(s, events + [OfSave(|s.ops|, MoveDone)] + [OfSave(|s.ops|, SaveEvent.Enqueue)], t)
  {
    var i := |s.ops|;
    assert Uri(dir, "media") !in s.files;
    LeadsOn(s, events, from, OfSave(i, MoveDone));
    t := FileMoved(from, i);
    assert t.files == s.files + {Uri(dir, name)};
    LeadsOn(s, events + [OfSave(i, MoveDone)], t, OfSave(i, SaveEvent.Enqueue));
    t := ToPublish(t, i);
  }

  /** What an undisturbed save leaves: its row and file, and the copy it replaced unless that could not be deleted. */
  function Stored(s: State, key: Key, title: string, dir: nat, name: string, size: int, now: int, oldDeleted: bool): State {
    var file := Uri(dir, name);
    s.(rows := s.rows[key := Row(title, file, size, now)],
       files := s.files + {file} - Gone(s, key, oldDeleted), dirs := s.dirs + {dir},
       ops := s.ops + [Next(s, key, title, Settled(true))], issued := s.issued + 1, served := s.served + 1, holder := None,
       attempts := s.attempts[dir := |s.ops|], published := s.published + {dir}, tickets := s.tickets[s.issued := |s.ops|])
  }

  /** The row is written and the save looks again whether it is still wanted. */
  function Inserted(s: State, key: Key, title: string, dir: nat, name: string, size: int, now: int): State {
    var row := Row(title, Uri(dir, name), size, now);
    ToBePublished(s, key, title, dir, name).(
      ops := s.ops + [Next(s, key, title, Saving(Attempt(dir, Uri(dir, name), Found(s, key)), Stage.Inserted(row)))],
      rows := s.rows[key := row], published := s.published + {dir}, holder := Some(|s.ops|))
  }

  lemma InsertRuns(s: State, key: Key, title: string, dir: nat, name: string, size: int, now: int)
    requires s.holder.None? && s.served == s.issued
    ensures Leads(ToBePublished(s, key, title, dir, name), [OfSave(|s.ops|, StartPublication(size, now)), OfSave(|s.ops|, InsertDone)],
                  Inserted(s, key, title, dir, name, size, now))
  {
    var i, from := |s.ops|, ToBePublished(s, key, title, dir, name);
    var start, insert := OfSave(i, StartPublication(size, now)), OfSave(i, InsertDone);
    assert Leads(from, [], from);
    LeadsOn(from, [], from, start);
    var t := PublicationStarted(from, i, size, now);
    assert [] + [start] == [start];
    LeadsOn(from, [start], t, insert);
    assert [start] + [insert] == [start, insert];
    assert RowInserted(t, i) == Inserted(s, key, title, dir, name, size, now);
  }

  function Gone(s: State, key: Key, oldDeleted: bool): set<Uri> {
    if key in s.rows && oldDeleted then {s.rows[key].uri} else {}
  }

  function Checked(s: State, key: Key, title: string, dir: nat, name: string, size: int, now: int, oldDeleted: bool): State {
    var row := Row(title, Uri(dir, name), size, now);
    ToBePublished(s, key, title, dir, name).(
      ops := s.ops + [Next(s, key, title, Saving(Attempt(dir, Uri(dir, name), Found(s, key)), Published(row)))],
      rows := s.rows[key := row], published := s.published + {dir}, holder := None, served := s.served + 1,
      files := s.files + {Uri(dir, name)} - Gone(s, key, oldDeleted))
  }

  lemma CheckedShape(s: State, key: Key, title: string, dir: nat, name: string, size: int, now: int, oldDeleted: bool)
    requires key in s.rows ==> s.rows[key].uri.dir != dir
    ensures InsertChecked(Inserted(s, key, title, dir, name, size, now), |s.ops|, oldDeleted)
      == Checked(s, key, title, dir, name, size, now, oldDeleted)
  {
    var i, from := |s.ops|, Inserted(s, key, title, dir, name, size, now);
    var a, row := Attempt(dir, Uri(dir, name), Found(s, key)), Row(title, Uri(dir, name), size, now);
    assert from.ops[i].phase == Saving(a, Stage.Inserted(row)) && from.ops[i].call == Save(key, title);
    assert Current(from, i);
    CheckedFiles(from, i, oldDeleted);
    ReplacedIsGone(s, key, dir, name);
  }

  lemma ReplacedIsGone(s: State, key: Key, dir: nat, name: string)
    requires key in s.rows ==> s.rows[key].uri.dir != dir
    ensures Replaced(Attempt(dir, Uri(dir, name), Found(s, key))) == Gone(s, key, true)
  {
  }

  lemma CheckedFiles(s: State, i: nat, oldDeleted: bool)
    requires InStage(s, i) && s.ops[i].phase.stage.Inserted? && Current(s, i)
    ensures
      var a, row := s.ops[i].phase.a, s.ops[i].phase.stage.row;
      InsertChecked(s, i, oldDeleted) ==
        s.(ops := s.ops[i := s.ops[i].(phase := Saving(a, Published(row)))], holder := None, served := s.served + 1,
           files := if oldDeleted then s.files - Replaced(a) else s.files)
  {
  }

  lemma FinishedShape(s: State, key: Key, title: string, dir: nat, name: string, size: int, now: int, oldDeleted: bool)
    requires dir !in s.active && (key in s.rows ==> s.rows[key].uri.dir != dir) && s.served == s.issued && s.holder.None?
    ensures SaveFinished(Checked(s, key, title, dir, name, size, now, oldDeleted), |s.ops|)
      == Stored(s, key, title, dir, name, size, now, oldDeleted)
  {
  }

  lemma CheckRuns(s: State, key: Key, title: string, dir: nat, name: string, size: int, now: int, oldDeleted: bool)
    requires s.served == s.issued && s.holder.None? && dir !in s.active && (key in s.rows ==> s.rows[key].uri.dir != dir)
    ensures Leads(Inserted(s, key, title, dir, name, size, now), [OfSave(|s.ops|, AfterInsert(oldDeleted)), OfSave(|s.ops|, FinishSave)],
                  Stored(s, key, title, dir, name, size, now, oldDeleted))
  {
    var i, from := |s.ops|, Inserted(s, key, title, dir, name, size, now);
    var check, finish := OfSave(i, AfterInsert(oldDeleted)), OfSave(i, FinishSave);
    CheckedShape(s, key, title, dir, name, size, now, oldDeleted);
    FinishedShape(s, key, title, dir, name, size, now, oldDeleted);
    assert Leads(from, [], from);
    LeadsOn(from, [], from, check);
    assert [] + [check] == [check];
    LeadsOn(from, [check], Checked(s, key, title, dir, name, size, now, oldDeleted), finish);
    assert [check] + [finish] == [check, finish];
  }

  lemma {:induction false} LeadsThen(s: State, first: seq<Event>, t: State, second: seq<Event>, u: State)
    requires Leads(s, first, t) && Leads(t, second, u)
    ensures Leads(s, first + second, u)
    decreases |first|
  {
    if first == [] {
      assert first + second == second;
    } else {
      assert (first + second)[1..] == first[1..] + second;
      LeadsThen(Apply(s, first[0]), first[1..], t, second, u);
    }
  }

  /** All of a save, from its call to its end. */
  function WholeSave(s: State, key: Key, title: string, dir: nat, name: string, size: int, now: int, oldDeleted: bool): seq<Event> {
    Transfer(s, key, title, dir) + Naming(|s.ops|, name) + Publication(|s.ops|, size, now, oldDeleted)
  }

  /**
   From every state with all operations settled: a save of any key that no one disturbs resolves.  Its row has the title,
   the file under the server's name, the size and the time, the file exists, the copy it replaces is gone unless it could
   not be deleted, and no other row, file or active directory has changed.
   */
  lemma UndisturbedSaveIsStored(s: State, key: Key, title: string, dir: nat, name: string, size: int, now: int, oldDeleted: bool)
    requires Inv(s) && ActiveOk(s) && AllSettled(s) && dir !in s.attempts
    ensures
      var events := WholeSave(s, key, title, dir, name, size, now, oldDeleted);
      Run(s, events) && ResolvedAlone(s, End(s, events), key, Row(title, Uri(dir, name), size, now), oldDeleted)
  {
    StoredRuns(s, key, title, dir, name, size, now, oldDeleted);
  }

  lemma StoredRuns(s: State, key: Key, title: string, dir: nat, name: string, size: int, now: int, oldDeleted: bool)
    requires Inv(s) && ActiveOk(s) && AllSettled(s) && dir !in s.attempts
    ensures Leads(s, WholeSave(s, key, title, dir, name, size, now, oldDeleted), Stored(s, key, title, dir, name, size, now, oldDeleted))
    ensures Uri(dir, name) !in Gone(s, key, oldDeleted) && s.active - {dir} == s.active
  {
    QueueIsIdle(s);
    assert key in s.rows ==> Registered(s, s.rows[key].uri, key);
    var named := SaveIsNamed(s, key, title, dir, name);
    PublicationRuns(s, key, title, dir, name, size, now, oldDeleted);
    LeadsThen(s, Transfer(s, key, title, dir) + Naming(|s.ops|, name), named,
              Publication(|s.ops|, size, now, oldDeleted), Stored(s, key, title, dir, name, size, now, oldDeleted));
  }

  lemma PublicationRuns(s: State, key: Key, title: string, dir: nat, name: string, size: int, now: int, oldDeleted: bool)
    requires s.served == s.issued && s.holder.None? && dir !in s.active && (key in s.rows ==> s.rows[key].uri.dir != dir)
    ensures Leads(ToBePublished(s, key, title, dir, name), Publication(|s.ops|, size, now, oldDeleted),
                  Stored(s, key, title, dir, name, size, now, oldDeleted))
  {
    var i := |s.ops|;
    InsertRuns(s, key, title, dir, name, size, now);
    CheckRuns(s, key, title, dir, name, size, now, oldDeleted);
    var first := [OfSave(i, StartPublication(size, now)), OfSave(i, InsertDone)];
    var last := [OfSave(i, AfterInsert(oldDeleted)), OfSave(i, FinishSave)];
    LeadsThen(ToBePublished(s, key, title, dir, name), first, Inserted(s, key, title, dir, name, size, now),
              last, Stored(s, key, title, dir, name, size, now, oldDeleted));
    assert first + last == Publication(i, size, now, oldDeleted);
  }

  predicate ResolvedAlone(s: State, t: State, key: Key, row: Row, oldDeleted: bool) {
    && |t.ops| == |s.ops| + 1 && t.ops[|s.ops|].phase == Settled(true)
    && t.rows == s.rows[key := row] && row.uri in t.files && t.active == s.active
    && t.files == s.files + {row.uri} - Gone(s, key, oldDeleted)
  }
}
