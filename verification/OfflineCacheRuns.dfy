/** What the offline cache stores after any run of saves and clears, failed ones included. */
module OfflineCacheRuns {
  import opened Options
  import opened OfflineCache

  datatype Event = SaveRan(save: Save, commits: bool) | ClearRan(host: Host, commits: bool)

  function Apply(st: State, e: Event): State {
    match e
    case SaveRan(s, commits) => if commits then Saved(st, s) else st
    case ClearRan(h, commits) => Cleared(st, h, commits)
  }

  function Run(events: seq<Event>): State {
    if events == [] then State(map[], map[], map[], map[])
    else Apply(Run(events[..|events| - 1]), events[|events| - 1])
  }

  /** The last committed save of the host since its last clear. */
  function LastSave(events: seq<Event>, h: Host): Option<Save> {
    if events == [] then None
    else match events[|events| - 1]
      case SaveRan(s, commits) => if commits && s.host == h then Some(s) else LastSave(events[..|events| - 1], h)
      case ClearRan(g, _) => if g == h then None else LastSave(events[..|events| - 1], h)
  }

  function LastProgress(events: seq<Event>, h: Host): map<Path, Encoded> {
    match LastSave(events, h) case Some(s) => s.progress case None => map[]
  }

  ghost predicate ClearsCommit(events: seq<Event>, h: Host) {
    forall i :: 0 <= i < |events| && events[i].ClearRan? && events[i].host == h ==> events[i].commits
  }

  lemma {:induction false} MemoryIsLastSave(events: seq<Event>, h: Host)
    ensures BaseOf(Run(events).bases, h) == LastProgress(events, h)
    ensures h in Run(events).identities <==> LastSave(events, h).Some?
    ensures h in Run(events).identities ==> Run(events).identities[h] == LastSave(events, h).value.identity
  {
    if events != [] { MemoryIsLastSave(events[..|events| - 1], h); }
  }

  // ---- which rows are stored ---------------------------------------------------------------------------

  function Seen(st: State, h: Host, p: Path): int { if (h, p) in st.rows then st.rows[(h, p)].lastSeen else 0 }

  /** A step that leaves a row in place which the next snapshots do not name. */
  predicate Spares(st: State, e: Event, h: Host, p: Path) {
    match e
    case ClearRan(g, commits) => !(g == h && commits)
    case SaveRan(s, commits) =>
      commits ==>
        if s.host == h then p !in s.progress && !Expires(Seen(st, h, p), p in s.active, s.savedAt)
        else !Expires(Seen(st, h, p), false, s.savedAt)
  }

  predicate SparesRow(events: seq<Event>, j: nat, h: Host, p: Path)
    requires j < |events|
  {
    Spares(Run(events[..j]), events[j], h, p)
  }

  predicate ClearFailsOn(events: seq<Event>, i: nat, h: Host, p: Path) {
    i < |events| && events[i] == ClearRan(h, false) && (h, p) in Run(events[..i]).rows
  }

  /** A clear of the host failed at step `i` with the row in the table, and every later step spared it. */
  ghost predicate LeftBy(events: seq<Event>, i: nat, h: Host, p: Path) {
    ClearFailsOn(events, i, h, p) && forall j :: i < j < |events| ==> SparesRow(events, j, h, p)
  }

  ghost predicate Left(events: seq<Event>, h: Host, p: Path) { exists i: nat :: LeftBy(events, i, h, p) }

  lemma LeftStep(events: seq<Event>, h: Host, p: Path)
    requires events != []
    ensures
      var n := |events| - 1;
      Left(events, h, p) <==> ClearFailsOn(events, n, h, p) || (Left(events[..n], h, p) && SparesRow(events, n, h, p))
  {
    var n := |events| - 1;
    forall i: nat | i < n
      ensures ClearFailsOn(events[..n], i, h, p) <==> ClearFailsOn(events, i, h, p)
      ensures SparesRow(events[..n], i, h, p) <==> SparesRow(events, i, h, p)
    {
      assert events[..n][..i] == events[..i];
    }
    if Left(events[..n], h, p) && SparesRow(events, n, h, p) {
      var i: nat :| LeftBy(events[..n], i, h, p);
      assert LeftBy(events, i, h, p);
    }
    if ClearFailsOn(events, n, h, p) { assert LeftBy(events, n, h, p); }
    if i: nat :| LeftBy(events, i, h, p) && i < n { assert LeftBy(events[..n], i, h, p); }
  }

  /** The row of one path before and after any step, against the diff base. */
  lemma RowStep(st: State, e: Event, h: Host, p: Path)
    requires (h, p) in st.rows && p in BaseOf(st.bases, h) ==> st.rows[(h, p)].payload == BaseOf(st.bases, h)[p]
    ensures
      var t := Apply(st, e);
      var base := BaseOf(t.bases, h);
      && ((h, p) in t.rows && p in base ==> t.rows[(h, p)].payload == base[p])
      && ((h, p) in t.rows && p !in base <==>
            (h, p) in st.rows && (e == ClearRan(h, false) || (p !in BaseOf(st.bases, h) && Spares(st, e, h, p))))
  {
    if e.SaveRan? && e.commits { GetIncremental(st.rows, BaseOf(st.bases, e.save.host), e.save, (h, p)); }
  }

  /** A row the last snapshot names has its text; any other was left behind by a failed clear. */
  lemma {:induction false} RowIsNewOrLeft(events: seq<Event>, h: Host, p: Path)
    ensures
      var last := LastProgress(events, h);
      && ((h, p) in Run(events).rows && p in last ==> Run(events).rows[(h, p)].payload == last[p])
      && ((h, p) in Run(events).rows && p !in last <==> Left(events, h, p))
  {
    MemoryIsLastSave(events, h);
    if events != [] {
      var before := events[..|events| - 1];
      RowIsNewOrLeft(before, h, p);
      MemoryIsLastSave(before, h);
      LeftStep(events, h, p);
      RowStep(Run(before), events[|events| - 1], h, p);
    }
  }

  /**
   Over any run, failed clears, saves of other hosts and rolled-back saves included: every stored row of the host carries
   the text of the last committed snapshot if and only if no row was left behind by a failed clear.
   */
  lemma RowsComeFromTheLastSave(events: seq<Event>, h: Host)
    ensures Covered(Run(events).rows, LastProgress(events, h), h) <==> forall p :: !Left(events, h, p)
  {
    forall p
      ensures ((h, p) in Run(events).rows ==> p in LastProgress(events, h) && LastProgress(events, h)[p] == Run(events).rows[(h, p)].payload)
        <==> !Left(events, h, p)
    {
      RowIsNewOrLeft(events, h, p);
    }
  }

  /** In particular when every clear of the host completed. */
  lemma CompletedClearsLeaveNothing(events: seq<Event>, h: Host)
    requires ClearsCommit(events, h)
    ensures Covered(Run(events).rows, LastProgress(events, h), h)
  {
    RowsComeFromTheLastSave(events, h);
  }

  /** One save after a failed clear: clean exactly when it names or purges the path of every row that was there. */
  lemma SaveAfterFailedClear(events: seq<Event>, s: Save)
    ensures
      var st := Run(events);
      Covered(Saved(Cleared(st, s.host, false), s).rows, s.progress, s.host) <==>
        forall p :: (s.host, p) in st.rows ==> p in s.progress || Expires(st.rows[(s.host, p)].lastSeen, p in s.active, s.savedAt)
  {
    var st := Run(events);
    var none: map<Path, Encoded> := map[];
    CoveredAfter(st.rows, none, s);
    forall p
      ensures ComesOutCovered(Get(st.rows, (s.host, p)), Get(none, p), Get(s.progress, p), p in s.active, s.savedAt) <==>
        ((s.host, p) in st.rows ==> p in s.progress || Expires(st.rows[(s.host, p)].lastSeen, p in s.active, s.savedAt))
    {
    }
  }

  /** Every progress path of the host's saves is in the saved library. */
  ghost predicate InLibrary(events: seq<Event>, h: Host) {
    forall i :: 0 <= i < |events| && events[i].SaveRan? && events[i].save.host == h ==>
      forall p :: p in events[i].save.progress ==> p in events[i].save.active
  }

  /** No committed save of any host comes more than 30 days after the host's last committed one. */
  ghost predicate Prompt(events: seq<Event>, h: Host) {
    forall i :: 0 <= i < |events| && events[i].SaveRan? && events[i].commits && LastSave(events[..i], h).Some? ==>
      events[i].save.savedAt <= LastSave(events[..i], h).value.savedAt + 2_592_000_000
  }

  lemma PrefixIsFine(events: seq<Event>, h: Host, n: nat)
    requires n <= |events| && ClearsCommit(events, h) && InLibrary(events, h) && Prompt(events, h)
    ensures ClearsCommit(events[..n], h) && InLibrary(events[..n], h) && Prompt(events[..n], h)
  {
    forall i | 0 <= i < n
      ensures events[..n][..i] == events[..i]
    {
    }
  }

  /** Under those conditions the table is the last committed snapshot, entry by entry, seen at its time. */
  lemma {:induction false} RowsAreTheLastSave(events: seq<Event>, h: Host, p: Path)
    requires ClearsCommit(events, h) && InLibrary(events, h) && Prompt(events, h)
    ensures Get(Run(events).rows, (h, p)) ==
      if p in LastProgress(events, h) then Some(Row(LastProgress(events, h)[p], LastSave(events, h).value.savedAt)) else None
  {
    if events != [] {
      var before, e := events[..|events| - 1], events[|events| - 1];
      PrefixIsFine(events, h, |events| - 1);
      RowsAreTheLastSave(before, h, p);
      MemoryIsLastSave(before, h);
      var st := Run(before);
      if e.SaveRan? && e.commits {
        GetIncremental(st.rows, BaseOf(st.bases, e.save.host), e.save, (h, p));
        if e.save.host == h {
          CompletedClearsLeaveNothing(before, h);
        }
      }
    }
  }

  // ---- metadata ----------------------------------------------------------------------------------------

  /** The time of the last committed save of the host, clears or not. */
  function LastTime(events: seq<Event>, h: Host): Option<int> {
    if events == [] then None
    else
      var e := events[|events| - 1];
      if e.SaveRan? && e.commits && e.save.host == h then Some(e.save.savedAt) else LastTime(events[..|events| - 1], h)
  }

  lemma {:induction false} MetadataIsDated(events: seq<Event>, h: Host)
    requires h in Run(events).snapshots
    ensures LastTime(events, h) == Some(Run(events).snapshots[h].savedAt)
  {
    if events != [] {
      if h in Run(events[..|events| - 1]).snapshots { MetadataIsDated(events[..|events| - 1], h); }
    }
  }

  /** Step `i` is a committed save of the host that finds its identity changed since the host's last save or clear. */
  predicate Writes(events: seq<Event>, i: nat, h: Host) {
    && i < |events| && events[i].SaveRan? && events[i].commits && events[i].save.host == h
    && (LastSave(events[..i], h).Some? ==> !SameIdentity(LastSave(events[..i], h).value.identity, events[i].save.identity))
  }

  /** Step `j` is no completed clear of the host, and no save of another host more than 30 days after the host's last. */
  predicate SparesMetadata(events: seq<Event>, j: nat, h: Host)
    requires j < |events|
  {
    match events[j]
    case ClearRan(g, commits) => !(g == h && commits)
    case SaveRan(s, commits) =>
      commits && s.host != h && LastTime(events[..j], h).Some? ==> s.savedAt - 2_592_000_000 <= LastTime(events[..j], h).value
  }

  /** The metadata stored now was written at step `i`. */
  ghost predicate WrittenBy(events: seq<Event>, i: nat, h: Host) {
    && Writes(events, i, h)
    && forall j :: i < j < |events| ==> SparesMetadata(events, j, h)
  }

  ghost predicate HasMetadata(events: seq<Event>, h: Host) { exists i: nat :: WrittenBy(events, i, h) }

  lemma MetadataStep(events: seq<Event>, h: Host)
    requires events != []
    ensures
      var n := |events| - 1;
      HasMetadata(events, h) <==> Writes(events, n, h) || (HasMetadata(events[..n], h) && SparesMetadata(events, n, h))
  {
    var n := |events| - 1;
    forall i | 0 <= i <= n ensures events[..n][..i] == events[..i] {}
    forall i: nat | i < n ensures Writes(events[..n], i, h) <==> Writes(events, i, h) {}
    forall j: nat | j < n ensures SparesMetadata(events[..n], j, h) <==> SparesMetadata(events, j, h) {}
    if HasMetadata(events[..n], h) && SparesMetadata(events, n, h) {
      var i: nat :| WrittenBy(events[..n], i, h);
      assert WrittenBy(events, i, h);
    }
    if Writes(events, n, h) { assert WrittenBy(events, n, h); }
    if i: nat :| WrittenBy(events, i, h) && i < n { assert WrittenBy(events[..n], i, h); }
  }

  /**
   Over any run: metadata of the host is stored if and only if some committed save found a changed identity and since
   then no clear of the host completed and no other host saved more than 30 days after this host's last save.
   */
  lemma {:induction false} MetadataIsThere(events: seq<Event>, h: Host)
    ensures h in Run(events).snapshots <==> HasMetadata(events, h)
  {
    if events != [] {
      var before := events[..|events| - 1];
      MetadataIsThere(before, h);
      MemoryIsLastSave(before, h);
      MetadataStep(events, h);
      if h in Run(before).snapshots { MetadataIsDated(before, h); }
    }
  }

  lemma {:induction false} LastSaveIsTimed(events: seq<Event>, h: Host)
    requires LastSave(events, h).Some?
    ensures LastTime(events, h) == Some(LastSave(events, h).value.savedAt)
  {
    var e := events[|events| - 1];
    if !(e.SaveRan? && e.commits && e.save.host == h) { LastSaveIsTimed(events[..|events| - 1], h); }
  }

  /** In particular when no save of any host is late: a host with a committed save has its metadata. */
  lemma {:induction false} PromptMetadataIsThere(events: seq<Event>, h: Host)
    requires ClearsCommit(events, h) && Prompt(events, h)
    ensures h in Run(events).snapshots <==> LastSave(events, h).Some?
  {
    if events != [] {
      var before, e := events[..|events| - 1], events[|events| - 1];
      forall i | 0 <= i < |before| ensures before[..i] == events[..i] {}
      PromptMetadataIsThere(before, h);
      MemoryIsLastSave(before, h);
      if h in Run(before).snapshots {
        MetadataIsDated(before, h);
        LastSaveIsTimed(before, h);
      }
    }
  }

  /** Both name a revision and it is the same, or one names none and the library is the same. */
  predicate SameVersion(l: Identity, r: Identity) {
    if l.revision.Some? && r.revision.Some? then l.revision == r.revision else l.libraryRef == r.libraryRef
  }

  /** Everything the identities compare but the version. */
  predicate SameRest(l: Identity, r: Identity) {
    && l.profileRef == r.profileRef && l.automatic == r.automatic && l.profilesRef == r.profilesRef
    && l.etag == r.etag && l.transport == r.transport && l.selection == r.selection && l.listsRef == r.listsRef
  }

  /** One save: the metadata stored afterwards fits it exactly when it was written, or fitted before. */
  lemma SavedMetadata(st: State, s: Save)
    requires s.host in Saved(st, s).snapshots
    ensures SameIdentity(Saved(st, s).snapshots[s.host].meta, s.identity) <==>
      Changed(st, s) || SameIdentity(st.snapshots[s.host].meta, s.identity)
  {
  }

  /** No save between the writing one and the last one writes, so they agree on all but the version. */
  lemma {:induction false} StoredIsTheLastWritten(events: seq<Event>, i: nat, h: Host)
    requires h in Run(events).snapshots
    requires Writes(events, i, h) && forall j: nat :: Writes(events, j, h) ==> j <= i
    ensures Run(events).snapshots[h].meta == events[i].save.identity
    ensures LastSave(events, h).Some? ==> SameRest(events[i].save.identity, LastSave(events, h).value.identity)
  {
    var n := |events| - 1;
    var before, e := events[..n], events[n];
    MemoryIsLastSave(before, h);
    if i < n {
      forall j: nat | j < n ensures Writes(before, j, h) <==> Writes(events, j, h) { assert before[..j] == events[..j]; }
      assert !Writes(events, n, h);
      if h in Run(before).snapshots { StoredIsTheLastWritten(before, i, h); }
    }
  }

  /** There is such a step whenever metadata is stored. */
  lemma SomeStepWroteIt(events: seq<Event>, h: Host) returns (i: nat)
    requires h in Run(events).snapshots
    ensures Writes(events, i, h) && forall j: nat :: Writes(events, j, h) ==> j <= i
  {
    MetadataIsThere(events, h);
    i :| WrittenBy(events, i, h);
    for n := i to |events|
      invariant Writes(events, i, h) && forall j: nat :: Writes(events, j, h) && j < n ==> j <= i
    {
      if Writes(events, n, h) { i := n; }
    }
  }

  /**
   Over any run: the stored metadata is interchangeable with that of the last committed save if and only if the version
   written last is still the version of that save.
   */
  lemma MetadataIsTheLastSave(events: seq<Event>, i: nat, h: Host)
    requires h in Run(events).snapshots && LastSave(events, h).Some?
    requires Writes(events, i, h) && forall j: nat :: Writes(events, j, h) ==> j <= i
    ensures SameIdentity(Run(events).snapshots[h].meta, LastSave(events, h).value.identity) <==>
      SameVersion(events[i].save.identity, LastSave(events, h).value.identity)
  {
    StoredIsTheLastWritten(events, i, h);
  }

  /** Either every save of the host names a catalog revision, or none does. */
  ghost predicate Uniform(events: seq<Event>, h: Host, revisions: bool) {
    forall i :: 0 <= i < |events| && events[i].SaveRan? && events[i].save.host == h ==>
      events[i].save.identity.revision.Some? == revisions
  }

  lemma {:induction false} LastSaveIsUniform(events: seq<Event>, h: Host, revisions: bool)
    requires Uniform(events, h, revisions) && LastSave(events, h).Some?
    ensures LastSave(events, h).value.identity.revision.Some? == revisions
  {
    var e := events[|events| - 1];
    if !(e.SaveRan? && e.commits && e.save.host == h) { LastSaveIsUniform(events[..|events| - 1], h, revisions); }
  }

  lemma SameIdentityIsTransitive(a: Identity, b: Identity, c: Identity)
    requires SameIdentity(a, b) && SameIdentity(b, c) && a.revision.Some? == b.revision.Some? == c.revision.Some?
    ensures SameIdentity(a, c)
  {
  }

  /** One save: what is stored afterwards. */
  lemma SavedStep(st: State, s: Save, h: Host)
    requires h in Saved(st, s).snapshots
    ensures var meta := Saved(st, s).snapshots[h].meta;
      if s.host == h && Changed(st, s) then meta == s.identity else h in st.snapshots && meta == st.snapshots[h].meta
  {
  }

  /** Then the versions never part. */
  lemma {:induction false} UniformMetadataIsTheLastSave(events: seq<Event>, h: Host, revisions: bool)
    requires Uniform(events, h, revisions) && h in Run(events).snapshots
    ensures LastSave(events, h).Some? ==> SameIdentity(Run(events).snapshots[h].meta, LastSave(events, h).value.identity)
    ensures Run(events).snapshots[h].meta.revision.Some? == revisions
  {
    var before, e := events[..|events| - 1], events[|events| - 1];
    MemoryIsLastSave(before, h);
    if e.SaveRan? && e.commits { SavedStep(Run(before), e.save, h); }
    if h in Run(before).snapshots {
      UniformMetadataIsTheLastSave(before, h, revisions);
      if LastSave(before, h).Some? && e.SaveRan? && e.commits && e.save.host == h && !Changed(Run(before), e.save) {
        LastSaveIsUniform(before, h, revisions);
        SameIdentityIsTransitive(Run(before).snapshots[h].meta, LastSave(before, h).value.identity, e.save.identity);
      }
    }
  }

  // ---- where the two part -------------------------------------------------------------------------------

  const SOMEONE := Identity(0, true, 0, 0, "", None, None, None, 0)
  const NOW: int := MAX_AGE + 1

  /** A path that joins the library after it was first saved keeps no row, though a rewrite would store it. */
  lemma LateLibraryPathIsLost(h: Host, p: Path, text: Encoded)
    ensures
      var outside := SaveRan(Save(h, SOMEONE, map[p := text], {}, NOW), true);
      var inside := Save(h, SOMEONE, map[p := text], {p}, NOW);
      var st := Run([outside]);
      && (h, p) !in Run([outside, SaveRan(inside, true)]).rows
      && Get(PlainRewrite(st.rows, inside), (h, p)) == Some(Row(text, NOW))
  {
    var outside := SaveRan(Save(h, SOMEONE, map[p := text], {}, NOW), true);
    var inside := Save(h, SOMEONE, map[p := text], {p}, NOW);
    assert [outside][..0] == [] && [outside, SaveRan(inside, true)][..1] == [outside];
    GetIncremental(map[], map[], outside.save, (h, p));
    var st := Run([outside]);
    assert Run([outside][..0]) == State(map[], map[], map[], map[]);
    assert st.rows == Incremental(map[], map[], outside.save);
    assert SavedRow(map[], map[], outside.save, (h, p)) == None;
    GetIncremental(st.rows, map[p := text], inside, (h, p));
    GetPlain(st.rows, inside, (h, p));
  }

  /** After a clear whose transaction failed, an entry the next snapshot no longer has stays stored. */
  lemma FailedClearLeavesRows(h: Host, p: Path, text: Encoded)
    ensures
      var first := SaveRan(Save(h, SOMEONE, map[p := text], {p}, NOW), true);
      var second := SaveRan(Save(h, SOMEONE, map[], {p}, NOW), true);
      Get(Run([first, ClearRan(h, false), second]).rows, (h, p)) == Some(Row(text, NOW))
  {
    var first := SaveRan(Save(h, SOMEONE, map[p := text], {p}, NOW), true);
    var second := SaveRan(Save(h, SOMEONE, map[], {p}, NOW), true);
    var clear := ClearRan(h, false);
    assert [first][..0] == [] && [first, clear][..1] == [first] && [first, clear, second][..2] == [first, clear];
    GetIncremental(map[], map[], first.save, (h, p));
    assert Get(Run([first]).rows, (h, p)) == Some(Row(text, NOW));
    GetIncremental(Run([first]).rows, map[], second.save, (h, p));
  }

  /** Metadata purged while its host was idle is not written again by a save that finds its identity unchanged. */
  lemma PurgedMetadataStaysAway(h: Host, g: Host)
    requires h != g
    ensures
      var first := SaveRan(Save(h, SOMEONE, map[], {}, 0), true);
      var other := SaveRan(Save(g, SOMEONE, map[], {}, NOW), true);
      var again := SaveRan(Save(h, SOMEONE, map[], {}, NOW), true);
      h !in Run([first, other, again]).snapshots
  {
    var first := SaveRan(Save(h, SOMEONE, map[], {}, 0), true);
    var other := SaveRan(Save(g, SOMEONE, map[], {}, NOW), true);
    var again := SaveRan(Save(h, SOMEONE, map[], {}, NOW), true);
    assert [first][..0] == [] && [first, other][..1] == [first] && [first, other, again][..2] == [first, other];
    MemoryIsLastSave([first, other], h);
    assert SavedSnapshot(Run([first]), other.save, h) == None;
  }

  /** A save without a revision between two with different ones hides the change of revision. */
  lemma MixedRevisionsDrift(h: Host, a: int, b: int)
    requires a != b
    ensures
      var one := SaveRan(Save(h, SOMEONE.(revision := Some(a)), map[], {}, NOW), true);
      var two := SaveRan(Save(h, SOMEONE, map[], {}, NOW), true);
      var three := SaveRan(Save(h, SOMEONE.(revision := Some(b)), map[], {}, NOW), true);
      var st := Run([one, two, three]);
      h in st.snapshots && st.snapshots[h].meta.revision == Some(a)
  {
    var one := SaveRan(Save(h, SOMEONE.(revision := Some(a)), map[], {}, NOW), true);
    var two := SaveRan(Save(h, SOMEONE, map[], {}, NOW), true);
    var three := SaveRan(Save(h, SOMEONE.(revision := Some(b)), map[], {}, NOW), true);
    assert [one][..0] == [] && [one, two][..1] == [one] && [one, two, three][..2] == [one, two];
    assert Run([one]).snapshots == map[h := Stored(one.save.identity, NOW)];
    assert Run([one, two]).snapshots[h].meta == one.save.identity;
  }
}
