/** What one download attempt leaves behind, through every interleaving. */
module DownloadAttempts {
  import opened Options
  import opened DownloadModel
  import opened DownloadInvariant
  import opened DownloadRuns

  /** Operation `i` has read `previous` and still remembers it. */
  predicate Remembers(s: State, i: nat, previous: Option<Row>) {
    i < |s.ops| && s.ops[i].call.Save?
    && match s.ops[i].phase
       case RowRead(p) => p == previous
       case Saving(a, _) => a.previous == previous
       case Settled(_) => true
       case _ => false
  }

  lemma StagedStepRemembers(s: State, e: SaveEvent, i: nat, previous: Option<Row>)
    requires Remembers(s, i, previous) && SaveEnabled(s, i, e) && BeforePublication(e)
    ensures Remembers(SaveStep(s, i, e), i, previous)
  {
  }

  lemma PublishedStepRemembers(s: State, e: SaveEvent, i: nat, previous: Option<Row>)
    requires Remembers(s, i, previous) && SaveEnabled(s, i, e) && !BeforePublication(e)
    ensures Remembers(SaveStep(s, i, e), i, previous)
  {
  }

  lemma StepRemembers(s: State, e: Event, i: nat, previous: Option<Row>)
    requires Inv(s) && Enabled(s, e) && Remembers(s, i, previous)
    ensures Remembers(Apply(s, e), i, previous)
  {
    if !Concerns(e, i) {
      OthersLeaveIt(s, e, i);
    } else if e.OfSave? {
      if BeforePublication(e.save) {
        StagedStepRemembers(s, e.save, i, previous);
      } else {
        PublishedStepRemembers(s, e.save, i, previous);
      }
    }
  }

  lemma {:induction false} RunRemembers(s: State, events: seq<Event>, i: nat, previous: Option<Row>)
    requires Inv(s) && Run(s, events) && Remembers(s, i, previous)
    ensures Remembers(End(s, events), i, previous)
    decreases |events|
  {
    if events != [] {
      StepRemembers(s, events[0], i, previous);
      KeepsStep(s, events[0]);
      RunRemembers(Apply(s, events[0]), events[1..], i, previous);
    }
  }

  /** The row of the key at the moment the attempt read it. */
  function RowOf(s: State, key: Key): Option<Row> { if key in s.rows then Some(s.rows[key]) else None }

  // ---- the copy that was there before ----------------------------------------------------

  /** While save `i` is under way its key has a row, and the file of the row it found was not deleted on purpose. */
  ghost predicate Holds(s: State, i: nat, before: Row) {
    && Remembers(s, i, Some(before))
    && (!s.ops[i].phase.Settled? ==>
          before.uri !in s.condemned && s.ops[i].call.key in s.rows && Owned(s, before.uri, s.ops[i].call.key))
  }

  /** The file of the key's row exists throughout. */
  lemma HeldFileExists(s: State, i: nat, before: Row)
    requires RowsOk(s) && Holds(s, i, before) && OpOk(s, i) && !s.ops[i].phase.Settled?
    ensures s.rows[s.ops[i].call.key].uri in s.files
  {
    assert Registered(s, s.rows[s.ops[i].call.key].uri, s.ops[i].call.key);
  }

  /** Only saves make directories and files, and only they enter the history of attempts and publications. */
  ghost predicate Shrinks(s: State, t: State) {
    t.files <= s.files && t.published == s.published && t.attempts == s.attempts
  }

  lemma DropStepShrinks(s: State, j: nat, e: DropEvent)
    requires IsDrop(s, j) && DropEnabled(s, j, e)
    ensures Shrinks(s, DropStep(s, j, e))
  {
  }

  lemma ListStepShrinks(s: State, j: nat, e: ListEvent)
    requires j < |s.ops| && ListEnabled(s, j, e)
    ensures Shrinks(s, ListStep(s, j, e))
  {
  }

  lemma CallShrinks(s: State, e: Event)
    requires Enabled(s, e) && !e.OfSave? && !e.OfDrop? && !e.OfList?
    ensures Shrinks(s, Apply(s, e))
  {
  }

  lemma OtherStepShrinks(s: State, e: Event)
    requires Enabled(s, e) && !e.OfSave?
    ensures Shrinks(s, Apply(s, e))
  {
    match e
    case OfDrop(j, drop) => DropStepShrinks(s, j, drop);
    case OfList(j, list) => ListStepShrinks(s, j, list);
    case _ => CallShrinks(s, e);
  }

  lemma SaveAttemptsStay(s: State, j: nat, e: SaveEvent, d: nat)
    requires j < |s.ops| && s.ops[j].call.Save? && SaveEnabled(s, j, e) && d in s.attempts
    ensures d in SaveStep(s, j, e).attempts && SaveStep(s, j, e).attempts[d] == s.attempts[d]
  {
  }

  lemma OwnedStays(s: State, e: Event, u: Uri, key: Key)
    requires Enabled(s, e) && Owned(s, u, key)
    ensures Owned(Apply(s, e), u, key)
  {
    if e.OfSave? { SaveAttemptsStay(s, e.i, e.save, u.dir); } else { OtherStepShrinks(s, e); }
    StepSameCall(s, e, s.attempts[u.dir]);
  }

  /** No step of a save takes a row away, except the restore of a save that had found none. */
  lemma SaveStepKeepsRow(s: State, j: nat, e: SaveEvent, key: Key)
    requires j < |s.ops| && s.ops[j].call.Save? && SaveEnabled(s, j, e) && key in s.rows
    requires s.ops[j].call.key == key && s.ops[j].phase.Saving? ==> s.ops[j].phase.a.previous.Some?
    ensures key in SaveStep(s, j, e).rows && SaveStep(s, j, e).condemned == s.condemned
  {
  }

  lemma DropStepKeepsRow(s: State, j: nat, e: DropEvent, key: Key, u: Uri)
    requires IsDrop(s, j) && DropEnabled(s, j, e) && OpOk(s, j) && key in s.rows && HostOf(s.ops[j].call) != key.host
    requires u !in s.condemned && Owned(s, u, key)
    ensures key in DropStep(s, j, e).rows && u !in DropStep(s, j, e).condemned
  {
    if e.DropFile? { assert OfHost(s, s.ops[j].phase.todo[0], s.ops[j].call); }
  }

  lemma ListStepKeepsRow(s: State, j: nat, e: ListEvent, key: Key)
    requires j < |s.ops| && ListEnabled(s, j, e) && OpOk(s, j) && key in s.rows && s.rows[key].uri in s.files
    ensures key in ListStep(s, j, e).rows && ListStep(s, j, e).condemned == s.condemned
  {
  }

  /** An operation of the same host cannot step while the save is under way. */
  lemma OthersAreElsewhere(s: State, i: nat, j: nat, e: Event)
    requires Fifo(s) && Enabled(s, e) && ((e.OfSave? && e.i == j) || (e.OfDrop? && e.i == j))
    requires i < |s.ops| && j < |s.ops| && i != j && Hosted(s.ops[i].call)
    requires !s.ops[i].phase.Settled? && !s.ops[i].phase.Queued?
    ensures Hosted(s.ops[j].call) && HostOf(s.ops[j].call) != HostOf(s.ops[i].call)
  {
    if SameHost(s.ops[i].call, s.ops[j].call) { Alone(s, i, j); }
  }

  lemma OtherQueuedStepHolds(s: State, e: Event, i: nat, before: Row)
    requires Fifo(s) && OpsOk(s) && Enabled(s, e) && Holds(s, i, before) && (e.OfSave? || e.OfDrop?) && e.i != i && !s.ops[i].phase.Settled?
    ensures s.ops[i].call.key in Apply(s, e).rows && before.uri !in Apply(s, e).condemned
  {
    var key := s.ops[i].call.key;
    OthersAreElsewhere(s, i, e.i, e);
    if e.OfSave? {
      SaveStepKeepsRow(s, e.i, e.save, key);
    } else {
      assert OpOk(s, e.i);
      DropStepKeepsRow(s, e.i, e.drop, key, before.uri);
    }
  }

  lemma OtherListStepHolds(s: State, e: Event, i: nat, before: Row)
    requires RowsOk(s) && OpsOk(s) && Enabled(s, e) && Holds(s, i, before) && e.OfList? && !s.ops[i].phase.Settled?
    ensures s.ops[i].call.key in Apply(s, e).rows && before.uri !in Apply(s, e).condemned
  {
    HeldFileExists(s, i, before);
    ListStepKeepsRow(s, e.i, e.list, s.ops[i].call.key);
  }

  lemma CallKeepsRows(s: State, e: Event)
    requires Enabled(s, e) && !e.OfSave? && !e.OfDrop? && !e.OfList?
    ensures Apply(s, e).rows == s.rows && Apply(s, e).condemned == s.condemned
  {
  }

  lemma OtherStepHolds(s: State, e: Event, i: nat, before: Row)
    requires Fifo(s) && RowsOk(s) && OpsOk(s) && Enabled(s, e) && Holds(s, i, before) && !Concerns(e, i) && !s.ops[i].phase.Settled?
    ensures s.ops[i].call.key in Apply(s, e).rows && before.uri !in Apply(s, e).condemned
  {
    if e.OfSave? || e.OfDrop? {
      OtherQueuedStepHolds(s, e, i, before);
    } else if e.OfList? {
      OtherListStepHolds(s, e, i, before);
    } else {
      CallKeepsRows(s, e);
    }
  }

  lemma StepHolds(s: State, e: Event, i: nat, before: Row)
    requires Inv(s) && Enabled(s, e) && Holds(s, i, before)
    ensures Holds(Apply(s, e), i, before)
  {
    StepRemembers(s, e, i, Some(before));
    StepSameCall(s, e, i);
    if !s.ops[i].phase.Settled? {
      OwnedStays(s, e, before.uri, s.ops[i].call.key);
      if !Concerns(e, i) {
        OtherStepHolds(s, e, i, before);
      } else if e.OfSave? {
        SaveStepKeepsRow(s, i, e.save, s.ops[i].call.key);
      }
    } else if !Concerns(e, i) {
      OthersLeaveIt(s, e, i);
    }
  }

  lemma {:induction false} RunHolds(s: State, events: seq<Event>, i: nat, before: Row)
    requires Inv(s) && Run(s, events) && Holds(s, i, before)
    ensures Holds(End(s, events), i, before)
    decreases |events|
  {
    if events != [] {
      StepHolds(s, events[0], i, before);
      KeepsStep(s, events[0]);
      RunHolds(Apply(s, events[0]), events[1..], i, before);
    }
  }

  /** A file that was missing from a directory that has had a row. */
  predicate Gone(s: State, u: Uri) { u.dir in s.published && u !in s.files }

  lemma SaveStepBringsNothingBack(s: State, j: nat, e: SaveEvent, u: Uri)
    requires j < |s.ops| && s.ops[j].call.Save? && SaveEnabled(s, j, e) && OpOk(s, j) && Gone(s, u)
    ensures Gone(SaveStep(s, j, e), u)
  {
  }

  lemma StepBringsNothingBack(s: State, e: Event, u: Uri)
    requires Enabled(s, e) && Gone(s, u) && OpsOk(s)
    ensures Gone(Apply(s, e), u)
  {
    if e.OfSave? { SaveStepBringsNothingBack(s, e.i, e.save, u); } else { OtherStepShrinks(s, e); }
  }

  lemma {:induction false} RunBringsNothingBack(s: State, events: seq<Event>, u: Uri)
    requires Inv(s) && Run(s, events) && Gone(s, u)
    ensures Gone(End(s, events), u)
    decreases |events|
  {
    if events != [] {
      StepBringsNothingBack(s, events[0], u);
      KeepsStep(s, events[0]);
      RunBringsNothingBack(Apply(s, events[0]), events[1..], u);
    }
  }

  // ---- the catch block ---------------------------------------------------------------------

  /** Save `i` has failed and its catch block comes next. */
  predicate Catching(e: State, i: nat) {
    i < |e.ops| && e.ops[i].call.Save? && e.ops[i].phase.Saving? && e.ops[i].phase.stage.Failing?
  }

  /**
   The copy found at the start is untouched.  Without one the key has no row.  A row whose file was there is still
   there with its file.  A row whose file was missing already at the read is still without it, unless a list dropped it.
   */
  ghost predicate CopyUntouched(t: State, key: Key, before: Option<Row>, hadFile: bool) {
    match before
    case None => key !in t.rows
    case Some(row) =>
      if hadFile then key in t.rows && t.rows[key] == row && row.uri in t.files
      else row.uri !in t.files && (key in t.rows ==> t.rows[key] == row)
  }

  /** The attempt's directory holds no row, and nothing at all once it is deleted. */
  ghost predicate DirectoryFree(t: State, dir: nat, deleted: bool) {
    && (forall k :: k in t.rows ==> t.rows[k].uri.dir != dir)
    && (deleted ==> dir !in t.dirs && forall u :: u in t.files ==> u.dir != dir)
  }

  /** The restoring write itself failed: the row names the attempt's file, and that file is kept. */
  predicate StillPublished(t: State, key: Key, a: Attempt) {
    key in t.rows && t.rows[key].uri == a.file && a.file in t.files && a.dir in t.dirs
  }

  lemma DirectoryIsLeft(e: State, i: nat, deleted: bool)
    requires Disk(e) && RowsOk(e) && Catching(e, i) && OpOk(e, i)
    ensures
      var t, key, a := CleanedUp(e, i, deleted), e.ops[i].call.key, e.ops[i].phase.a;
      && t.ops[i].phase == Settled(false) && a.dir !in t.active
      && (if e.ops[i].phase.stage.committed then StillPublished(t, key, a) else DirectoryFree(t, a.dir, deleted))
  {
    if !e.ops[i].phase.stage.committed { UndoneDirIsFree(e, i, e.ops[i].phase.a); }
  }

  lemma CopyIsLeft(e: State, i: nat, before: Option<Row>, hadFile: bool, deleted: bool)
    requires RowsOk(e) && Catching(e, i) && OpOk(e, i) && !e.ops[i].phase.stage.committed && Remembers(e, i, before)
    requires before.Some? ==> if hadFile then Holds(e, i, before.value) else Gone(e, before.value.uri)
    ensures CopyUntouched(CleanedUp(e, i, deleted), e.ops[i].call.key, before, hadFile)
  {
    UndoneDirIsFree(e, i, e.ops[i].phase.a);
    if before.Some? && hadFile { HeldFileExists(e, i, before.value); }
  }

  /**
   From the state in which the attempt reads its row, through any interleaving, to the catch block that ends it.
   Unless the restoring write itself failed, the earlier copy is untouched and nothing of the attempt is left.
   */
  lemma FailedAttemptLeavesNothing(s: State, i: nat, events: seq<Event>, e: State, deleted: bool)
    requires Inv(s) && i < |s.ops| && s.ops[i].call.Save? && s.ops[i].phase.ReadingRow?
    requires Leads(RowFound(s, i), events, e) && Catching(e, i)
    ensures
      var key, before := s.ops[i].call.key, RowOf(s, s.ops[i].call.key);
      var t, a := CleanedUp(e, i, deleted), e.ops[i].phase.a;
      && e.ops[i].call.key == key && t.ops[i].phase == Settled(false) && a.dir !in t.active
      && (if e.ops[i].phase.stage.committed then StillPublished(t, key, a)
          else DirectoryFree(t, a.dir, deleted) && CopyUntouched(t, key, before, before.Some? && before.value.uri in s.files))
  {
    var key, before, r := s.ops[i].call.key, RowOf(s, s.ops[i].call.key), RowFound(s, i);
    KeepsRead(s, i);
    RunRemembers(r, events, i, before);
    RunKeeps(r, events);
    SameCall(r, events, i);
    assert OpOk(e, i);
    DirectoryIsLeft(e, i, deleted);
    if !e.ops[i].phase.stage.committed {
      if before.Some? {
        assert Registered(s, before.value.uri, key);
        if before.value.uri in s.files {
          assert Owned(r, before.value.uri, key);
          RunHolds(r, events, i, before.value);
        } else {
          RunBringsNothingBack(r, events, before.value.uri);
        }
      }
      CopyIsLeft(e, i, before, before.Some? && before.value.uri in s.files, deleted);
    }
  }

  /** An attempt that failed or was withdrawn before it had a directory changed no row and no file. */
  lemma EarlyFailureChangesNothing(s: State, i: nat)
    requires i < |s.ops| && s.ops[i].call.Save? && (s.ops[i].phase.ReadingRow? || s.ops[i].phase.RowRead?)
    ensures Fail(s, i).rows == s.rows && Fail(s, i).files == s.files && Fail(s, i).dirs == s.dirs
    ensures Fail(s, i).ops[i].phase == Settled(false)
  {
  }

  /** A save that settles successfully leaves the row it reported, and that row's file exists. */
  lemma SuccessfulAttemptIsStored(s: State, i: nat)
    requires Inv(s) && i < |s.ops| && s.ops[i].call.Save? && SaveEnabled(s, i, FinishSave)
    ensures var t := SaveFinished(s, i);
      var key, row := s.ops[i].call.key, s.ops[i].phase.stage.row;
      && t.ops[i].phase == Settled(true)
      && key in t.rows && t.rows[key] == row && row.uri == s.ops[i].phase.a.file && row.uri in t.files
  {
    assert OpOk(s, i);
  }
}
