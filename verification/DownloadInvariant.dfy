/** What every step of the download protocol keeps, one lemma a step. */
module DownloadInvariant {
  import opened Options
  import opened DownloadModel

  /** Operations of one host start in call order and never overlap. */
  ghost predicate Fifo(s: State) {
    forall i, j :: 0 <= i < j < |s.ops| && SameHost(s.ops[i].call, s.ops[j].call) && !s.ops[j].phase.Queued?
      ==> s.ops[i].phase.Settled?
  }

  predicate Waiting(p: Phase) { (p.Saving? && p.stage.Publishing?) || p.ReconcileWaiting? }

  function TicketOf(p: Phase): nat
    requires Waiting(p)
  {
    if p.Saving? then p.stage.ticket else p.ticket
  }

  /** At most one publication runs, and every unserved ticket belongs to an operation still waiting for it. */
  ghost predicate Tickets(s: State) {
    && s.served <= s.issued
    && (s.holder.Some? ==> s.served < s.issued)
    && (forall i :: 0 <= i < |s.ops| ==> (Holding(s.ops[i].phase) <==> s.holder == Some(i)))
    && (forall i :: 0 <= i < |s.ops| && Waiting(s.ops[i].phase) ==>
          var t := TicketOf(s.ops[i].phase);
          FirstWaiting(s) <= t < s.issued && t in s.tickets && s.tickets[t] == i)
    && (forall t :: FirstWaiting(s) <= t < s.issued ==>
          t in s.tickets && s.tickets[t] < |s.ops| && Waiting(s.ops[s.tickets[t]].phase) && TicketOf(s.ops[s.tickets[t]].phase) == t)
    && (s.holder.Some? ==> s.holder.value < |s.ops|)
  }

  function FirstWaiting(s: State): nat { if s.holder.Some? then s.served + 1 else s.served }

  /** The save of `key` created the directory of `u`. */
  predicate Owned(s: State, u: Uri, key: Key) {
    && u.dir in s.attempts && s.attempts[u.dir] < |s.ops|
    && s.ops[s.attempts[u.dir]].call.Save? && s.ops[s.attempts[u.dir]].call.key == key
  }

  /** A remove or clear of the host deleted the file and has not deleted the row: it still runs, or it failed. */
  predicate Condemned(s: State, u: Uri, host: string) {
    && u in s.condemned && s.condemned[u] < |s.ops|
    && var c := s.ops[s.condemned[u]];
    && (c.call.Clear? || c.call.Remove?) && HostOf(c.call) == host
    && (c.phase == Settled(false) || (c.phase.DroppingRow? && c.phase.uri == u))
  }

  predicate Backed(s: State, u: Uri, host: string) { u in s.files || Condemned(s, u, host) }

  predicate Registered(s: State, u: Uri, key: Key) { u.dir in s.published && Owned(s, u, key) && Backed(s, u, key.host) }

  ghost predicate RowsOk(s: State) { forall k :: k in s.rows ==> Registered(s, s.rows[k].uri, k) }

  predicate DoneClear(s: State, c: nat, host: string) {
    c < |s.ops| && s.ops[c].call == Clear(host) && s.ops[c].phase == Settled(true)
  }

  /** `u` was written by a save called after every completed clear of the host. */
  ghost predicate AfterClears(s: State, u: Uri, host: string) {
    u.dir in s.attempts && forall c :: DoneClear(s, c, host) ==> c < s.attempts[u.dir]
  }

  ghost predicate ClearsOk(s: State) { forall k :: k in s.rows ==> AfterClears(s, s.rows[k].uri, k.host) }

  /** The row a save found is still in place, or its file was already missing and a list dropped it. */
  predicate StillThere(s: State, key: Key, previous: Option<Row>) {
    if key in s.rows then previous == Some(s.rows[key])
    else previous.Some? ==> previous.value.uri !in s.files
  }

  ghost predicate PreviousOk(s: State, key: Key, previous: Option<Row>) {
    previous.Some? ==> Registered(s, previous.value.uri, key) && AfterClears(s, previous.value.uri, key.host)
  }

  predicate Owner(s: State, i: nat, a: Attempt)
    requires i < |s.ops|
  {
    && s.ops[i].call.Save?
    && a.dir in s.attempts && s.attempts[a.dir] == i && a.dir in s.dirs && a.dir in s.active && a.file.dir == a.dir
  }

  /** A save that has published nothing. */
  ghost predicate Staged(s: State, i: nat, a: Attempt)
    requires i < |s.ops|
  {
    && Owner(s, i, a) && a.dir !in s.published
    && StillThere(s, s.ops[i].call.key, a.previous) && PreviousOk(s, s.ops[i].call.key, a.previous)
  }

  /** A save whose row is in the table. */
  predicate Live(s: State, i: nat, a: Attempt)
    requires i < |s.ops|
  {
    && Owner(s, i, a) && a.dir in s.published && a.file in s.files
    && s.ops[i].call.key in s.rows && s.rows[s.ops[i].call.key].uri == a.file
  }

  /** A save whose row is not in the table. */
  predicate Undone(s: State, i: nat, a: Attempt)
    requires i < |s.ops|
  {
    && Owner(s, i, a) && StillThere(s, s.ops[i].call.key, a.previous)
    && (a.previous.Some? ==> a.previous.value.uri.dir in s.published)
    && (s.ops[i].call.key in s.rows ==> s.rows[s.ops[i].call.key].uri.dir != a.dir)
  }

  predicate NoRows(s: State, host: string) { forall k :: k in s.rows ==> k.host != host }

  predicate OfHost(s: State, u: Uri, c: Call) {
    && u.dir in s.published && u.dir in s.attempts && s.attempts[u.dir] < |s.ops|
    && s.ops[s.attempts[u.dir]].call.Save? && SameHost(s.ops[s.attempts[u.dir]].call, c)
  }

  /** What is left for a clear covers the host's rows; a remove is about its own file. */
  ghost predicate DropsOk(s: State, c: Call, todo: seq<Uri>) {
    && (c.Clear? || c.Remove?)
    && (forall u :: u in todo ==> OfHost(s, u, c))
    && (c.Clear? ==> forall k :: k in s.rows && k.host == c.host ==> s.rows[k].uri in todo)
    && (c.Remove? && c.key in s.rows && s.rows[c.key].uri == c.uri ==> c.uri in todo)
    && (c.Remove? ==> forall u :: u in todo ==> u == c.uri && Owned(s, u, c.key))
  }

  /** Stages before the row is written, and stages after which it is still there. */
  predicate Early(p: Stage) { p.Transferring? || p.Transferred? || p.Moving? || p.Moved? || p.Publishing? || p.Inserting? }

  predicate Late(p: Stage) { p.Inserted? || p.Restoring? || p.Published? || (p.Failing? && p.committed) }

  ghost predicate OpOk(s: State, i: nat)
    requires i < |s.ops|
  {
    var c := s.ops[i].call;
    match s.ops[i].phase
    case Queued => Hosted(c) && (c.Remove? ==> WasRow(s, c.key, c.uri))
    case ReadingRow => c.Save?
    case RowRead(previous) => c.Save? && StillThere(s, c.key, previous) && PreviousOk(s, c.key, previous)
    case Saving(a, stage) =>
      if Early(stage) then
        && Staged(s, i, a) && (stage.Transferring? || a.file in s.files)
        && (stage.Moving? ==> stage.to.dir == a.dir) && (stage.Inserting? ==> stage.row.uri == a.file)
      else if Late(stage) then
        && Live(s, i, a) && (stage.Failing? || s.rows[c.key] == stage.row)
        && (stage.Inserted? || stage.Restoring? ==>
              PreviousOk(s, c.key, a.previous) && (a.previous.Some? ==> a.previous.value.uri.dir != a.dir))
      else Undone(s, i, a)
    case ClearReading => c.Clear?
    case Dropping(todo) => DropsOk(s, c, todo)
    case DroppingRow(u, todo) => DropsOk(s, c, [u] + todo) && u !in s.files && u.dir in s.published
    case ReconcileWaiting(_) => !c.Save? && !c.Remove? && (c.Clear? ==> NoRows(s, c.host))
    case ReconcileReading => !c.Save? && !c.Remove? && (c.Clear? ==> NoRows(s, c.host))
    case ReconcileRead(retained) =>
      && !c.Save? && !c.Remove? && (c.Clear? ==> NoRows(s, c.host))
      && forall k :: k in s.rows ==> s.rows[k].uri in retained
    case ListReading => c.List?
    case Listing(rows) => c.List? && forall r :: r in rows ==> r.1.dir in s.published
    case ListDeleting(k, u, rows) =>
      c.List? && u.dir in s.published && u !in s.files && forall r :: r in rows ==> r.1.dir in s.published
    case Settled(_) => true
  }

  /** Files lie in existing directories, attempts made the directories, and no deleted file comes back. */
  ghost predicate Disk(s: State) {
    && (forall u :: u in s.files ==> u.dir in s.dirs)
    && (forall d :: d in s.dirs || d in s.published ==> d in s.attempts)
    && (forall u :: u in s.condemned ==> u !in s.files && u.dir in s.published)
  }

  ghost predicate OpsOk(s: State) { forall i :: 0 <= i < |s.ops| ==> OpOk(s, i) }

  ghost predicate Inv(s: State) {
    Fifo(s) && Tickets(s) && Disk(s) && RowsOk(s) && ClearsOk(s) && OpsOk(s)
  }

  lemma FreshIsFine()
    ensures Inv(Fresh())
  {
  }

  // ---- what a step leaves alone ----------------------------------------------

  /** Same calls and history, and no file reappears in a directory that has had a row. */
  ghost predicate Extends(s: State, t: State) {
    && |s.ops| <= |t.ops|
    && (forall j :: 0 <= j < |s.ops| ==> t.ops[j].call == s.ops[j].call)
    && (forall d :: d in s.attempts ==> d in t.attempts && t.attempts[d] == s.attempts[d])
    && s.published <= t.published
    && (forall u :: u in t.files && u.dir in s.published ==> u in s.files)
  }

  ghost predicate SameCondemned(s: State, t: State, host: string) {
    forall u :: Condemned(s, u, host) ==> Condemned(t, u, host)
  }

  ghost predicate Grows(s: State, t: State) {
    Extends(s, t) && forall u, h :: Condemned(s, u, h) ==> Condemned(t, u, h)
  }

  /** The rows of `host` are as before, except that rows without a file may be gone. */
  ghost predicate SameRows(s: State, t: State, host: string) {
    && (forall k :: k in t.rows && k.host == host ==> k in s.rows && s.rows[k] == t.rows[k])
    && (forall k :: k in s.rows && k.host == host && k !in t.rows ==> s.rows[k].uri !in s.files)
  }

  ghost predicate SameClears(s: State, t: State, host: string) {
    forall c :: DoneClear(t, c, host) ==> DoneClear(s, c, host)
  }

  predicate DirOfSave(s: State, d: nat, j: nat) {
    d in s.attempts && s.attempts[d] == j && j < |s.ops| && s.ops[j].phase.Saving? && d in s.dirs && d in s.active
  }

  /** Directories of running saves other than `i` survive with their files. */
  ghost predicate SameAttempts(s: State, t: State, i: nat) {
    && (forall d :: d in t.published && d !in s.published ==> d in s.attempts && s.attempts[d] == i)
    && forall d, j :: j != i && DirOfSave(s, d, j) ==>
         d in t.active && d in t.dirs && forall u :: u in s.files && u.dir == d ==> u in t.files
  }

  /** A file of `host` that is gone was not named by a row, or was deleted on purpose. */
  ghost predicate SameFiles(s: State, t: State, host: string) {
    forall k :: k in s.rows && k.host == host && s.rows[k].uri in s.files ==> Backed(t, s.rows[k].uri, host)
  }

  /** While `j` runs a publication no other file of its host goes away. */
  ghost predicate SamePublication(s: State, t: State, j: nat)
    requires j < |s.ops|
  {
    s.holder == Some(j) ==>
      && (s.ops[j].phase.ReconcileRead? ==> forall k :: k in t.rows ==> k in s.rows && s.rows[k].uri == t.rows[k].uri)
      && (s.ops[j].call.Save? ==> forall u :: u in s.files && Owned(s, u, s.ops[j].call.key) ==> u in t.files)
  }

  lemma PreviousFrame(s: State, t: State, key: Key, previous: Option<Row>)
    requires Extends(s, t) && SameCondemned(s, t, key.host) && SameRows(s, t, key.host) && SameClears(s, t, key.host)
    requires previous.Some? && PreviousOk(s, key, previous)
    requires previous.value.uri in s.files ==> Backed(t, previous.value.uri, key.host)
    ensures PreviousOk(t, key, previous)
  {
    var u := previous.value.uri;
    assert Backed(t, u, key.host);
    forall c | DoneClear(t, c, key.host)
      ensures c < t.attempts[u.dir]
    {
      assert DoneClear(s, c, key.host);
    }
  }

  lemma SaveFrame(s: State, t: State, i: nat, j: nat)
    requires Inv(s) && Extends(s, t) && SameAttempts(s, t, i) && j != i
    requires j < |s.ops| && t.ops[j].phase == s.ops[j].phase
    requires SamePublication(s, t, j)
    requires s.ops[j].call.Save? && !s.ops[j].phase.Queued? && !s.ops[j].phase.Settled?
    requires var h := HostOf(s.ops[j].call); SameCondemned(s, t, h) && SameRows(s, t, h) && SameClears(s, t, h) && SameFiles(s, t, h)
    ensures OpOk(t, j)
  {
    var key, p := s.ops[j].call.key, s.ops[j].phase;
    assert OpOk(s, j);
    if p.Saving? { assert DirOfSave(s, p.a.dir, j); }
    var previous := if p.RowRead? then p.previous else if p.Saving? then p.a.previous else None;
    if previous.Some? && PreviousOk(s, key, previous) && (previous.value.uri in s.files ==> Backed(t, previous.value.uri, key.host)) {
      PreviousFrame(s, t, key, previous);
    }
  }

  lemma OpFrame(s: State, t: State, i: nat, j: nat)
    requires Inv(s) && Extends(s, t) && SameAttempts(s, t, i) && j != i
    requires j < |s.ops| && t.ops[j].phase == s.ops[j].phase
    requires SamePublication(s, t, j)
    requires Hosted(s.ops[j].call) && !s.ops[j].phase.Queued? && !s.ops[j].phase.Settled? ==>
               var h := HostOf(s.ops[j].call); SameCondemned(s, t, h) && SameRows(s, t, h) && SameClears(s, t, h) && SameFiles(s, t, h)
    ensures OpOk(t, j)
  {
    var c, p := s.ops[j].call, s.ops[j].phase;
    assert OpOk(s, j);
    if c.Save? && !p.Queued? && !p.Settled? {
      SaveFrame(s, t, i, j);
    }
  }

  // ---- the parts of the invariant that every step of one operation keeps --------

  ghost predicate Moves(s: State, t: State, i: nat) {
    && i < |s.ops| && |t.ops| == |s.ops|
    && (forall j :: 0 <= j < |s.ops| && j != i ==> t.ops[j] == s.ops[j])
    && t.ops[i].call == s.ops[i].call
    && !s.ops[i].phase.Settled? && !t.ops[i].phase.Queued?
    && (s.ops[i].phase.Queued? ==> Idle(s, i))
  }

  lemma KeepsFifo(s: State, t: State, i: nat)
    requires Fifo(s) && Moves(s, t, i)
    ensures Fifo(t)
  {
  }

  lemma KeepsClears(s: State, t: State, i: nat)
    requires ClearsOk(s) && Extends(s, t) && Moves(s, t, i)
    requires forall k :: k in t.rows ==> k in s.rows && s.rows[k] == t.rows[k]
    requires s.ops[i].call.Clear? && t.ops[i].phase == Settled(true) ==> NoRows(s, s.ops[i].call.host)
    ensures ClearsOk(t)
  {
    forall k | k in t.rows
      ensures AfterClears(t, t.rows[k].uri, k.host)
    {
      assert AfterClears(s, s.rows[k].uri, k.host);
      forall c | DoneClear(t, c, k.host)
        ensures c < t.attempts[t.rows[k].uri.dir]
      {
        if c != i { assert DoneClear(s, c, k.host); }
      }
    }
  }

  /** No other operation of the same host is under way. */
  lemma Alone(s: State, i: nat, j: nat)
    requires Fifo(s) && i < |s.ops| && j < |s.ops| && i != j && SameHost(s.ops[i].call, s.ops[j].call)
    requires !s.ops[i].phase.Settled? && (s.ops[i].phase.Queued? ==> Idle(s, i))
    ensures s.ops[j].phase.Queued? || s.ops[j].phase.Settled?
  {
  }

  ghost predicate SameStore(s: State, t: State) {
    && t.rows == s.rows && t.files == s.files && t.dirs == s.dirs && t.active == s.active
    && t.attempts == s.attempts && t.published == s.published && t.condemned == s.condemned
  }

  lemma GrowsAlone(s: State, t: State, i: nat)
    requires Moves(s, t, i) && SameStore(s, t)
    requires s.ops[i].phase.DroppingRow? ==> t.ops[i].phase == Settled(false)
    ensures Grows(s, t)
  {
  }

  lemma OtherOk(s: State, t: State, i: nat, j: nat)
    requires Inv(s) && Moves(s, t, i) && SameStore(s, t) && Grows(s, t) && j < |s.ops| && j != i
    ensures OpOk(t, j)
  {
    if Hosted(s.ops[j].call) && !s.ops[j].phase.Queued? && !s.ops[j].phase.Settled? {
      if SameHost(s.ops[i].call, s.ops[j].call) { Alone(s, i, j); }
    }
    OpFrame(s, t, i, j);
  }

  /** A step of `i` that moves only its own phase and the publication queue. */
  lemma KeepsOthers(s: State, t: State, i: nat)
    requires Inv(s) && Moves(s, t, i) && SameStore(s, t)
    requires s.ops[i].phase.DroppingRow? ==> t.ops[i].phase == Settled(false)
    requires s.ops[i].call.Clear? && t.ops[i].phase == Settled(true) ==> NoRows(s, s.ops[i].call.host)
    requires OpOk(t, i) && Tickets(t)
    ensures Inv(t)
  {
    GrowsAlone(s, t, i);
    KeepsFifo(s, t, i);
    KeepsClears(s, t, i);
    KeepsRows(s, t);
    forall j | 0 <= j < |t.ops|
      ensures OpOk(t, j)
    {
      if j != i { OtherOk(s, t, i, j); }
    }
  }

  // ---- the publication queue ---------------------------------------------------

  lemma TicketsKept(s: State, t: State, i: nat)
    requires Tickets(s) && Moves(s, t, i)
    requires t.issued == s.issued && t.served == s.served && t.holder == s.holder && t.tickets == s.tickets
    requires !Waiting(s.ops[i].phase) && !Waiting(t.ops[i].phase) && Holding(s.ops[i].phase) == Holding(t.ops[i].phase)
    ensures Tickets(t)
  {
  }

  lemma TicketStarts(s: State, t: State, i: nat)
    requires Tickets(s) && Moves(s, t, i)
    requires t.issued == s.issued && t.served == s.served && t.tickets == s.tickets
    requires Waiting(s.ops[i].phase) && TicketOf(s.ops[i].phase) == s.served && s.holder.None?
    requires t.holder == Some(i) && Holding(t.ops[i].phase)
    ensures Tickets(t)
  {
  }

  /** The publication of `i` settles, whether it ran or was refused at its start. */
  lemma TicketEnds(s: State, t: State, i: nat)
    requires Tickets(s) && Moves(s, t, i)
    requires t.issued == s.issued && t.served == s.served + 1 && t.tickets == s.tickets && t.holder.None?
    requires Holding(s.ops[i].phase)
             || (s.holder.None? && Waiting(s.ops[i].phase) && TicketOf(s.ops[i].phase) == s.served)
    requires !Holding(t.ops[i].phase) && !Waiting(t.ops[i].phase)
    ensures Tickets(t)
  {
  }

  lemma TicketDrawn(s: State, t: State, i: nat)
    requires Tickets(s) && Moves(s, t, i)
    requires t.issued == s.issued + 1 && t.served == s.served && t.holder == s.holder && t.tickets == s.tickets[s.issued := i]
    requires !Waiting(s.ops[i].phase) && !Holding(s.ops[i].phase)
    requires Waiting(t.ops[i].phase) && TicketOf(t.ops[i].phase) == s.issued
    ensures Tickets(t)
  {
  }

  // ---- a step that changes no table and no file ----------------------------------

  lemma Abandoned(s: State, t: State, i: nat, a: Attempt)
    requires RowsOk(s) && Moves(s, t, i) && SameStore(s, t) && Staged(s, i, a)
    ensures Undone(t, i, a)
  {
  }

  lemma StagedOn(s: State, t: State, i: nat, a: Attempt)
    requires Inv(s) && Moves(s, t, i) && SameStore(s, t) && Staged(s, i, a) && !s.ops[i].phase.DroppingRow?
    ensures Staged(t, i, a)
  {
    GrowsAlone(s, t, i);
    if a.previous.Some? { PreviousFrame(s, t, s.ops[i].call.key, a.previous); }
  }

  lemma FailMoves(s: State, i: nat)
    requires i < |s.ops| && Awaiting(s.ops[i].phase)
    ensures Moves(s, Fail(s, i), i) && SameStore(s, Fail(s, i))
  {
  }

  lemma FailedSave(s: State, i: nat)
    requires RowsOk(s) && i < |s.ops| && OpOk(s, i) && Awaiting(s.ops[i].phase) && s.ops[i].phase.Saving?
    ensures OpOk(Fail(s, i), i)
  {
    var p := s.ops[i].phase;
    FailMoves(s, i);
    if p.stage.Restoring? { assert Live(Fail(s, i), i, p.a); } else { Abandoned(s, Fail(s, i), i, p.a); }
  }

  lemma FailTickets(s: State, i: nat)
    requires i < |s.ops| && Awaiting(s.ops[i].phase) && Tickets(s)
    ensures Tickets(Fail(s, i))
  {
    FailMoves(s, i);
    if Holding(s.ops[i].phase) { TicketEnds(s, Fail(s, i), i); } else { TicketsKept(s, Fail(s, i), i); }
  }

  lemma KeepsFailure(s: State, i: nat)
    requires Inv(s) && i < |s.ops| && Awaiting(s.ops[i].phase)
    ensures Inv(Fail(s, i))
  {
    FailMoves(s, i);
    FailTickets(s, i);
    if s.ops[i].phase.Saving? { FailedSave(s, i); }
    KeepsOthers(s, Fail(s, i), i);
  }

  // ---- save steps that change no table and no file -----------------------------------

  lemma KeepsStart(s: State, i: nat)
    requires Inv(s) && i < |s.ops| && s.ops[i].call.Save? && Idle(s, i)
    ensures Inv(SaveStarted(s, i))
  {
    var t := SaveStarted(s, i);
    assert Moves(s, t, i) && SameStore(s, t);
    TicketsKept(s, t, i);
    KeepsOthers(s, t, i);
  }

  lemma KeepsRead(s: State, i: nat)
    requires Inv(s) && i < |s.ops| && s.ops[i].call.Save? && s.ops[i].phase.ReadingRow?
    ensures Inv(RowFound(s, i))
  {
    var t := RowFound(s, i);
    var key := s.ops[i].call.key;
    assert Moves(s, t, i) && SameStore(s, t);
    GrowsAlone(s, t, i);
    if key in s.rows { PreviousFrame(s, t, key, Some(s.rows[key])); }
    TicketsKept(s, t, i);
    KeepsOthers(s, t, i);
  }

  /** From `Transferred` or `Moved`: refused, or still staged in another phase. */
  lemma KeepsStaged(s: State, t: State, i: nat)
    requires Inv(s) && InStage(s, i) && Moves(s, t, i) && SameStore(s, t) && Tickets(t)
    requires Early(s.ops[i].phase.stage) && !s.ops[i].phase.stage.Transferring?
    requires t.ops[i].phase.Saving? && t.ops[i].phase.a == s.ops[i].phase.a
    requires var p := t.ops[i].phase.stage;
      || p == Failing(false) || p.Publishing?
      || (p.Moving? && p.to.dir == s.ops[i].phase.a.dir)
      || (p.Inserting? && p.row.uri == s.ops[i].phase.a.file)
    ensures Inv(t)
  {
    assert OpOk(s, i);
    if t.ops[i].phase.stage.Failing? { Abandoned(s, t, i, s.ops[i].phase.a); } else { StagedOn(s, t, i, s.ops[i].phase.a); }
    KeepsOthers(s, t, i);
  }

  lemma KeepsEnqueue(s: State, i: nat)
    requires Inv(s) && InStage(s, i) && (s.ops[i].phase.stage.Transferred? || s.ops[i].phase.stage.Moved?)
    ensures Inv(ToPublish(s, i))
  {
    var t := ToPublish(s, i);
    assert Moves(s, t, i) && SameStore(s, t);
    if Current(s, i) { TicketDrawn(s, t, i); } else { TicketsKept(s, t, i); }
    KeepsStaged(s, t, i);
  }

  lemma KeepsStagedPhase(s: State, i: nat, p: Phase)
    requires Inv(s) && InStage(s, i) && s.ops[i].phase.stage.Transferred?
    requires p.Saving? && p.a == s.ops[i].phase.a
    requires p.stage == Failing(false) || (p.stage.Moving? && p.stage.to.dir == p.a.dir)
    ensures Inv(At(s, i, p))
  {
    var t := At(s, i, p);
    assert Moves(s, t, i) && SameStore(s, t);
    TicketsKept(s, t, i);
    KeepsStaged(s, t, i);
  }

  lemma KeepsCheck(s: State, i: nat, accepted: bool, name: string)
    requires Inv(s) && InStage(s, i) && s.ops[i].phase.stage.Transferred?
    ensures Inv(TransferChecked(s, i, accepted, name))
  {
    var a := s.ops[i].phase.a;
    if !Current(s, i) || !accepted {
      KeepsStagedPhase(s, i, Saving(a, Failing(false)));
    } else if name == a.file.name {
      KeepsEnqueue(s, i);
    } else {
      assert OpOk(s, i);
      KeepsStagedPhase(s, i, Saving(a, Moving(Uri(a.dir, name))));
    }
  }

  lemma KeepsPublication(s: State, i: nat, size: int, now: int)
    requires Inv(s) && InStage(s, i) && s.ops[i].phase.stage.Publishing? && AtTurn(s, s.ops[i].phase.stage.ticket)
    ensures Inv(PublicationStarted(s, i, size, now))
  {
    var t := PublicationStarted(s, i, size, now);
    assert Moves(s, t, i) && SameStore(s, t);
    if Current(s, i) { TicketStarts(s, t, i); } else { TicketEnds(s, t, i); }
    KeepsStaged(s, t, i);
  }

  lemma KeepsRestoreSettled(s: State, i: nat)
    requires Inv(s) && InStage(s, i) && s.ops[i].phase.stage.Restored?
    ensures Inv(RestoreSettled(s, i))
  {
    var t := RestoreSettled(s, i);
    assert OpOk(s, i);
    assert Moves(s, t, i) && SameStore(s, t);
    TicketEnds(s, t, i);
    KeepsOthers(s, t, i);
  }

  // ---- steps that change tables or files ----------------------------------------------

  /** Hosts other than the one `i` works for see no change that matters to them. */
  ghost predicate OtherHosts(s: State, t: State, i: nat)
    requires i < |s.ops|
  {
    forall h :: !(Hosted(s.ops[i].call) && HostOf(s.ops[i].call) == h) ==>
      SameCondemned(s, t, h) && SameRows(s, t, h) && SameFiles(s, t, h)
  }

  lemma KeepsStore(s: State, t: State, i: nat)
    requires Inv(s) && Moves(s, t, i) && Extends(s, t) && SameAttempts(s, t, i) && OtherHosts(s, t, i)
    requires forall j :: 0 <= j < |s.ops| && j != i ==> SamePublication(s, t, j)
    requires Tickets(t) && OpOk(t, i) && Disk(t) && RowsOk(t) && ClearsOk(t)
    ensures Inv(t)
  {
    KeepsFifo(s, t, i);
    forall j | 0 <= j < |t.ops|
      ensures OpOk(t, j)
    {
      if j != i {
        if Hosted(s.ops[j].call) && !s.ops[j].phase.Queued? && !s.ops[j].phase.Settled? {
          if SameHost(s.ops[i].call, s.ops[j].call) { Alone(s, i, j); }
        }
        OpFrame(s, t, i, j);
      }
    }
  }

  lemma BegunShape(s: State, i: nat, dir: nat)
    requires i < |s.ops| && s.ops[i].call.Save? && s.ops[i].phase.RowRead? && dir !in s.attempts && Disk(s) && Current(s, i)
    ensures var t := Begun(s, i, dir);
      && Moves(s, t, i) && Grows(s, t) && SameAttempts(s, t, i) && OtherHosts(s, t, i) && Disk(t)
      && forall j :: 0 <= j < |s.ops| && j != i ==> SamePublication(s, t, j)
  {
  }

  lemma BegunOk(s: State, i: nat, dir: nat)
    requires i < |s.ops| && s.ops[i].call.Save? && s.ops[i].phase.RowRead? && dir !in s.attempts && Current(s, i)
    requires Disk(s) && OpOk(s, i) && Moves(s, Begun(s, i, dir), i) && Grows(s, Begun(s, i, dir))
    ensures OpOk(Begun(s, i, dir), i)
  {
    var t := Begun(s, i, dir);
    var previous := s.ops[i].phase.previous;
    if previous.Some? { PreviousFrame(s, t, s.ops[i].call.key, previous); }
  }

  lemma KeepsRows(s: State, t: State)
    requires RowsOk(s) && Grows(s, t)
    requires forall k :: k in t.rows ==> k in s.rows && s.rows[k] == t.rows[k]
    requires forall k :: k in t.rows && s.rows[k].uri in s.files ==> Backed(t, s.rows[k].uri, k.host)
    ensures RowsOk(t)
  {
  }

  lemma KeepsGivingUp(s: State, i: nat, dir: nat)
    requires Inv(s) && i < |s.ops| && s.ops[i].call.Save? && s.ops[i].phase.RowRead? && !Current(s, i)
    ensures Inv(Begun(s, i, dir))
  {
    var t := Begun(s, i, dir);
    assert t.dirs == s.dirs && t.active == s.active && t.attempts == s.attempts;
    TicketsKept(s, t, i);
    KeepsOthers(s, t, i);
  }

  lemma BegunRest(s: State, i: nat, dir: nat)
    requires Tickets(s) && RowsOk(s) && ClearsOk(s) && i < |s.ops| && s.ops[i].call.Save? && s.ops[i].phase.RowRead? && Current(s, i)
    requires dir !in s.attempts && Moves(s, Begun(s, i, dir), i) && Grows(s, Begun(s, i, dir))
    ensures Tickets(Begun(s, i, dir)) && RowsOk(Begun(s, i, dir)) && ClearsOk(Begun(s, i, dir))
  {
    var t := Begun(s, i, dir);
    TicketsKept(s, t, i);
    KeepsClears(s, t, i);
    KeepsRows(s, t);
  }

  lemma KeepsBeginning(s: State, i: nat, dir: nat)
    requires Inv(s) && i < |s.ops| && s.ops[i].call.Save? && s.ops[i].phase.RowRead? && dir !in s.attempts && Current(s, i)
    ensures Inv(Begun(s, i, dir))
  {
    var t := Begun(s, i, dir);
    BegunShape(s, i, dir);
    assert OpOk(s, i);
    BegunOk(s, i, dir);
    BegunRest(s, i, dir);
    KeepsStore(s, t, i);
  }

  lemma KeepsBegin(s: State, i: nat, dir: nat)
    requires Inv(s) && i < |s.ops| && s.ops[i].call.Save? && s.ops[i].phase.RowRead? && dir !in s.attempts
    ensures Inv(Begun(s, i, dir))
  {
    if Current(s, i) { KeepsBeginning(s, i, dir); } else { KeepsGivingUp(s, i, dir); }
  }

  /** The transfer or the move puts a file into the save's own directory, which no row names yet. */
  function PutFile(s: State, i: nat, p: Phase, u: Uri, gone: set<Uri>): State
    requires i < |s.ops|
  {
    At(s.(files := s.files - gone + {u}), i, p)
  }

  predicate Putting(s: State, i: nat, p: Phase, u: Uri, gone: set<Uri>) {
    && InStage(s, i) && Owner(s, i, s.ops[i].phase.a) && s.ops[i].phase.a.dir !in s.published
    && u.dir == s.ops[i].phase.a.dir && (forall v :: v in gone ==> v.dir == u.dir)
    && p.Saving?
  }

  lemma PutFileShape(s: State, i: nat, p: Phase, u: Uri, gone: set<Uri>)
    requires RowsOk(s) && Disk(s) && Fifo(s) && Putting(s, i, p, u, gone)
    ensures var t := PutFile(s, i, p, u, gone);
      && Moves(s, t, i) && Grows(s, t) && SameAttempts(s, t, i) && OtherHosts(s, t, i) && Disk(t)
      && SameRows(s, t, s.ops[i].call.key.host)
      && forall k :: k in s.rows && s.rows[k].uri in s.files ==> s.rows[k].uri in t.files
  {
  }

  lemma PutFilePublication(s: State, i: nat, p: Phase, u: Uri, gone: set<Uri>, j: nat)
    requires Inv(s) && Putting(s, i, p, u, gone) && j < |s.ops| && j != i
    ensures SamePublication(s, PutFile(s, i, p, u, gone), j)
  {
    if s.holder == Some(j) && s.ops[j].call.Save? {
      if SameHost(s.ops[i].call, s.ops[j].call) { Alone(s, i, j); }
    }
  }

  lemma KeepsPutFile(s: State, i: nat, p: Phase, u: Uri, gone: set<Uri>)
    requires Inv(s) && Putting(s, i, p, u, gone) && Staged(s, i, s.ops[i].phase.a) && !Holding(s.ops[i].phase)
    requires !Waiting(s.ops[i].phase) && !Waiting(p) && !Holding(p) && Early(p.stage) && !p.stage.Moving?
    requires p.a.(file := u) == s.ops[i].phase.a.(file := u) && p.a.file == u
    ensures Inv(PutFile(s, i, p, u, gone))
  {
    var t := PutFile(s, i, p, u, gone);
    PutFileShape(s, i, p, u, gone);
    forall j | 0 <= j < |s.ops| && j != i
      ensures SamePublication(s, t, j)
    {
      PutFilePublication(s, i, p, u, gone, j);
    }
    TicketsKept(s, t, i);
    KeepsClears(s, t, i);
    KeepsRows(s, t);
    assert OpOk(t, i) by {
      if p.a.previous.Some? { PreviousFrame(s, t, s.ops[i].call.key, p.a.previous); }
    }
    KeepsStore(s, t, i);
  }

  lemma KeepsTransfer(s: State, i: nat)
    requires Inv(s) && InStage(s, i) && s.ops[i].phase.stage.Transferring?
    ensures Inv(TransferArrived(s, i))
  {
    var a := s.ops[i].phase.a;
    assert OpOk(s, i);
    assert s.files - {} + {a.file} == s.files + {a.file};
    KeepsPutFile(s, i, Saving(a, Transferred), a.file, {});
  }

  lemma KeepsMove(s: State, i: nat)
    requires Inv(s) && InStage(s, i) && s.ops[i].phase.stage.Moving?
    ensures Inv(FileMoved(s, i))
  {
    var a, to := s.ops[i].phase.a, s.ops[i].phase.stage.to;
    assert OpOk(s, i);
    KeepsPutFile(s, i, Saving(a.(file := to), Moved), to, {a.file});
  }

  /** Completed clears of the host were called before the operation that is under way. */
  lemma ClearsBefore(s: State, i: nat, c: nat)
    requires Fifo(s) && i < |s.ops| && Hosted(s.ops[i].call) && !s.ops[i].phase.Settled?
    requires s.ops[i].phase.Queued? ==> Idle(s, i)
    requires DoneClear(s, c, HostOf(s.ops[i].call))
    ensures c < i
  {
    assert SameHost(s.ops[i].call, s.ops[c].call);
  }

  lemma InsertedMoves(s: State, i: nat)
    requires Disk(s) && InStage(s, i) && OpOk(s, i) && s.ops[i].phase.stage.Inserting?
    ensures var t := RowInserted(s, i);
      && Moves(s, t, i) && Grows(s, t) && SameAttempts(s, t, i) && Disk(t)
  {
  }

  lemma InsertedShape(s: State, i: nat)
    requires Tickets(s) && InStage(s, i) && OpOk(s, i) && s.ops[i].phase.stage.Inserting?
    requires Moves(s, RowInserted(s, i), i)
    ensures var t := RowInserted(s, i);
      && OtherHosts(s, t, i)
      && forall j :: 0 <= j < |s.ops| && j != i ==> SamePublication(s, t, j)
  {
  }

  lemma InsertedClears(s: State, i: nat)
    requires Fifo(s) && ClearsOk(s) && InStage(s, i) && s.ops[i].phase.stage.Inserting? && OpOk(s, i)
    requires Moves(s, RowInserted(s, i), i)
    ensures ClearsOk(RowInserted(s, i))
  {
    var t := RowInserted(s, i);
    forall k | k in t.rows
      ensures AfterClears(t, t.rows[k].uri, k.host)
    {
      forall c | DoneClear(t, c, k.host)
        ensures c < t.attempts[t.rows[k].uri.dir]
      {
        assert DoneClear(s, c, k.host);
        if k == s.ops[i].call.key { ClearsBefore(s, i, c); } else { assert AfterClears(s, s.rows[k].uri, k.host); }
      }
    }
  }

  lemma InsertedOk(s: State, i: nat)
    requires InStage(s, i) && s.ops[i].phase.stage.Inserting? && OpOk(s, i) && RowsOk(s)
    requires Moves(s, RowInserted(s, i), i) && Grows(s, RowInserted(s, i))
    ensures OpOk(RowInserted(s, i), i) && RowsOk(RowInserted(s, i))
  {
    var t := RowInserted(s, i);
    forall c | DoneClear(t, c, s.ops[i].call.key.host) ensures DoneClear(s, c, s.ops[i].call.key.host) {}
  }

  lemma KeepsInsert(s: State, i: nat)
    requires Inv(s) && InStage(s, i) && s.ops[i].phase.stage.Inserting?
    ensures Inv(RowInserted(s, i))
  {
    var t := RowInserted(s, i);
    assert OpOk(s, i);
    InsertedMoves(s, i);
    InsertedShape(s, i);
    InsertedClears(s, i);
    InsertedOk(s, i);
    TicketsKept(s, t, i);
    KeepsStore(s, t, i);
  }

  /** The previous copy goes only once the row of its key names the new file. */
  lemma ReplacedIsUnnamed(s: State, i: nat)
    requires RowsOk(s) && InStage(s, i) && OpOk(s, i) && s.ops[i].phase.stage.Inserted?
    ensures forall k :: k in s.rows ==> s.rows[k].uri !in Replaced(s.ops[i].phase.a)
  {
    forall k | k in s.rows
      ensures s.rows[k].uri !in Replaced(s.ops[i].phase.a)
    {
      assert Registered(s, s.rows[k].uri, k);
    }
  }

  lemma ReplacedMoves(s: State, i: nat)
    requires Disk(s) && Tickets(s) && InStage(s, i) && OpOk(s, i) && s.ops[i].phase.stage.Inserted? && Current(s, i)
    ensures var t := InsertChecked(s, i, true);
      && Moves(s, t, i) && Grows(s, t) && Disk(t)
      && (forall j :: 0 <= j < |s.ops| && j != i ==> SamePublication(s, t, j))
  {
  }

  lemma ReplacedShape(s: State, i: nat)
    requires Fifo(s) && InStage(s, i) && OpOk(s, i) && s.ops[i].phase.stage.Inserted? && Current(s, i)
    requires forall k :: k in s.rows ==> s.rows[k].uri !in Replaced(s.ops[i].phase.a)
    requires Moves(s, InsertChecked(s, i, true), i) && Grows(s, InsertChecked(s, i, true))
    ensures var t := InsertChecked(s, i, true);
      SameAttempts(s, t, i) && OtherHosts(s, t, i)
  {
    var a := s.ops[i].phase.a;
    forall d: nat, j: nat | j != i && DirOfSave(s, d, j)
      ensures a.previous.Some? ==> a.previous.value.uri.dir != d
    {
      ReplacedIsNotSaving(s, i, j, a);
    }
  }

  /** No other save of the host runs, so the directory of the previous copy is no running save's. */
  lemma ReplacedIsNotSaving(s: State, i: nat, j: nat, a: Attempt)
    requires Fifo(s) && i < |s.ops| && j < |s.ops| && i != j && s.ops[i].call.Save? && s.ops[i].phase.Saving? && s.ops[j].phase.Saving?
    requires PreviousOk(s, s.ops[i].call.key, a.previous)
    ensures a.previous.Some? ==> s.attempts[a.previous.value.uri.dir] != j
  {
    if SameHost(s.ops[i].call, s.ops[j].call) { Alone(s, i, j); }
  }

  lemma ReplacedRest(s: State, i: nat)
    requires Tickets(s) && InStage(s, i) && OpOk(s, i) && s.ops[i].phase.stage.Inserted? && Current(s, i)
    requires Moves(s, InsertChecked(s, i, true), i)
    requires forall k :: k in s.rows ==> s.rows[k].uri !in Replaced(s.ops[i].phase.a)
    ensures Tickets(InsertChecked(s, i, true)) && OpOk(InsertChecked(s, i, true), i)
  {
    TicketEnds(s, InsertChecked(s, i, true), i);
  }

  lemma KeepsReplaced(s: State, i: nat)
    requires Inv(s) && InStage(s, i) && s.ops[i].phase.stage.Inserted? && Current(s, i)
    ensures Inv(InsertChecked(s, i, true))
  {
    var t := InsertChecked(s, i, true);
    assert OpOk(s, i);
    ReplacedIsUnnamed(s, i);
    ReplacedMoves(s, i);
    ReplacedShape(s, i);
    ReplacedRest(s, i);
    KeepsClears(s, t, i);
    KeepsRows(s, t);
    KeepsStore(s, t, i);
  }

  lemma KeepsPublished(s: State, i: nat)
    requires Inv(s) && InStage(s, i) && s.ops[i].phase.stage.Inserted? && Current(s, i)
    ensures Inv(InsertChecked(s, i, false))
  {
    var t := InsertChecked(s, i, false);
    assert OpOk(s, i);
    assert Moves(s, t, i) && SameStore(s, t);
    TicketEnds(s, t, i);
    KeepsOthers(s, t, i);
  }

  lemma WithdrawnOk(s: State, i: nat)
    requires InStage(s, i) && OpOk(s, i) && s.ops[i].phase.stage.Inserted? && !Current(s, i)
    ensures var t := InsertChecked(s, i, false);
      && Moves(s, t, i) && SameStore(s, t) && OpOk(t, i)
  {
    var t := InsertChecked(s, i, false);
    var a := s.ops[i].phase.a;
    assert Moves(s, t, i) && SameStore(s, t);
    GrowsAlone(s, t, i);
    if a.previous.Some? { PreviousFrame(s, t, s.ops[i].call.key, a.previous); }
  }

  lemma KeepsWithdrawn(s: State, i: nat)
    requires Inv(s) && InStage(s, i) && s.ops[i].phase.stage.Inserted? && !Current(s, i)
    ensures Inv(InsertChecked(s, i, false))
  {
    assert OpOk(s, i);
    WithdrawnOk(s, i);
    TicketsKept(s, InsertChecked(s, i, false), i);
    KeepsOthers(s, InsertChecked(s, i, false), i);
  }

  lemma KeepsInsertChecked(s: State, i: nat, oldDeleted: bool)
    requires Inv(s) && InStage(s, i) && s.ops[i].phase.stage.Inserted?
    ensures Inv(InsertChecked(s, i, oldDeleted))
  {
    if !Current(s, i) { KeepsWithdrawn(s, i); } else if oldDeleted { KeepsReplaced(s, i); } else { KeepsPublished(s, i); }
  }

  lemma RestoredMoves(s: State, i: nat)
    requires Disk(s) && InStage(s, i) && s.ops[i].phase.stage.Restoring?
    ensures var t := RowRestored(s, i);
      && Moves(s, t, i) && Grows(s, t) && SameAttempts(s, t, i) && Disk(t)
  {
  }

  lemma RestoredShape(s: State, i: nat)
    requires Tickets(s) && InStage(s, i) && OpOk(s, i) && s.ops[i].phase.stage.Restoring?
    requires Moves(s, RowRestored(s, i), i)
    ensures var t := RowRestored(s, i);
      && OtherHosts(s, t, i)
      && forall j :: 0 <= j < |s.ops| && j != i ==> SamePublication(s, t, j)
  {
  }

  lemma RestoredOk(s: State, i: nat)
    requires RowsOk(s) && InStage(s, i) && OpOk(s, i) && s.ops[i].phase.stage.Restoring?
    requires Grows(s, RowRestored(s, i))
    ensures OpOk(RowRestored(s, i), i) && RowsOk(RowRestored(s, i))
  {
  }

  lemma RestoredClears(s: State, i: nat)
    requires ClearsOk(s) && InStage(s, i) && OpOk(s, i) && s.ops[i].phase.stage.Restoring?
    requires Moves(s, RowRestored(s, i), i)
    ensures ClearsOk(RowRestored(s, i))
  {
    var t := RowRestored(s, i);
    forall k | k in t.rows
      ensures AfterClears(t, t.rows[k].uri, k.host)
    {
      forall c | DoneClear(t, c, k.host)
        ensures c < t.attempts[t.rows[k].uri.dir]
      {
        assert DoneClear(s, c, k.host);
        if k != s.ops[i].call.key { assert AfterClears(s, s.rows[k].uri, k.host); }
      }
    }
  }

  lemma KeepsRestore(s: State, i: nat)
    requires Inv(s) && InStage(s, i) && s.ops[i].phase.stage.Restoring?
    ensures Inv(RowRestored(s, i))
  {
    var t := RowRestored(s, i);
    assert OpOk(s, i);
    RestoredMoves(s, i);
    RestoredShape(s, i);
    RestoredOk(s, i);
    RestoredClears(s, i);
    TicketsKept(s, t, i);
    KeepsStore(s, t, i);
  }

  /** Deleting directories no row and no other running save uses. */
  lemma DeleteShape(s: State, t: State, i: nat)
    requires Disk(s) && RowsOk(s) && Fifo(s) && Moves(s, t, i)
    requires t.rows == s.rows && t.attempts == s.attempts && t.published == s.published && t.condemned == s.condemned
    requires t.dirs <= s.dirs && t.files == s.files - InDir(s.files, s.dirs - t.dirs)
    requires !s.ops[i].phase.DroppingRow?
    requires forall k :: k in s.rows ==> s.rows[k].uri.dir !in s.dirs - t.dirs
    requires forall d: nat, j: nat :: j != i && DirOfSave(s, d, j) ==> d in t.dirs && d in t.active
    ensures Grows(s, t) && SameAttempts(s, t, i) && OtherHosts(s, t, i) && Disk(t) && RowsOk(t)
  {
    assert forall k :: k in s.rows && s.rows[k].uri in s.files ==> s.rows[k].uri in t.files;
    assert Grows(s, t);
  }

  lemma UndoneDirIsFree(s: State, i: nat, a: Attempt)
    requires RowsOk(s) && i < |s.ops| && Undone(s, i, a)
    ensures forall k :: k in s.rows ==> s.rows[k].uri.dir != a.dir
  {
    forall k | k in s.rows
      ensures s.rows[k].uri.dir != a.dir
    {
      assert Registered(s, s.rows[k].uri, k);
    }
  }

  lemma SamePublicationOfOthers(s: State, t: State, i: nat, j: nat)
    requires Fifo(s) && Tickets(s) && InStage(s, i) && j < |s.ops| && j != i
    requires t.rows == s.rows
    requires forall u :: u in s.files && u !in t.files ==> Owned(s, u, s.ops[i].call.key)
    ensures SamePublication(s, t, j)
  {
    if s.holder == Some(j) && s.ops[j].call.Save? {
      if SameHost(s.ops[i].call, s.ops[j].call) { Alone(s, i, j); }
    }
  }

  /** A save leaves its directory behind, or deletes it when no row lies inside. */
  lemma KeepsLeaving(s: State, t: State, i: nat, gone: set<nat>, ok: bool)
    requires Inv(s) && InStage(s, i) && !Holding(s.ops[i].phase) && !Waiting(s.ops[i].phase)
    requires var dir := s.ops[i].phase.a.dir;
      && gone <= {dir} && t == At(DeleteDirs(s, gone).(active := s.active - {dir}), i, Settled(ok))
    requires forall k :: k in s.rows ==> s.rows[k].uri.dir !in gone
    requires Owner(s, i, s.ops[i].phase.a)
    ensures Inv(t)
  {
    assert Moves(s, t, i);
    assert t.files == s.files - InDir(s.files, s.dirs - t.dirs);
    DeleteShape(s, t, i);
    forall j | 0 <= j < |s.ops| && j != i
      ensures SamePublication(s, t, j)
    {
      SamePublicationOfOthers(s, t, i, j);
    }
    TicketsKept(s, t, i);
    KeepsClears(s, t, i);
    KeepsStore(s, t, i);
  }

  lemma CleanedShape(s: State, i: nat, deleted: bool)
    requires InStage(s, i) && s.ops[i].phase.stage.Failing?
    ensures var dir, gives := s.ops[i].phase.a.dir, !s.ops[i].phase.stage.committed && deleted;
      CleanedUp(s, i, deleted) == At(DeleteDirs(s, if gives then {dir} else {}).(active := s.active - {dir}), i, Settled(false))
  {
  }

  lemma CleanedIsFree(s: State, i: nat, deleted: bool)
    requires RowsOk(s) && InStage(s, i) && s.ops[i].phase.stage.Failing? && OpOk(s, i)
    ensures Owner(s, i, s.ops[i].phase.a)
    ensures !s.ops[i].phase.stage.committed ==> forall k :: k in s.rows ==> s.rows[k].uri.dir != s.ops[i].phase.a.dir
  {
    if !s.ops[i].phase.stage.committed { UndoneDirIsFree(s, i, s.ops[i].phase.a); }
  }

  lemma KeepsCleanup(s: State, i: nat, deleted: bool)
    requires Inv(s) && InStage(s, i) && s.ops[i].phase.stage.Failing?
    ensures Inv(CleanedUp(s, i, deleted))
  {
    var p := s.ops[i].phase;
    assert OpOk(s, i);
    CleanedIsFree(s, i, deleted);
    CleanedShape(s, i, deleted);
    KeepsLeaving(s, CleanedUp(s, i, deleted), i, if !p.stage.committed && deleted then {p.a.dir} else {}, false);
  }

  lemma KeepsFinish(s: State, i: nat)
    requires Inv(s) && InStage(s, i) && s.ops[i].phase.stage.Published?
    ensures Inv(SaveFinished(s, i))
  {
    assert OpOk(s, i);
    assert s.dirs - {} == s.dirs && s.files - InDir(s.files, {}) == s.files;
    KeepsLeaving(s, SaveFinished(s, i), i, {}, true);
  }

  // ---- clear and remove ------------------------------------------------------------------

  predicate IsDrop(s: State, i: nat) { i < |s.ops| && (s.ops[i].call.Clear? || s.ops[i].call.Remove?) }

  lemma KeepsDropStart(s: State, i: nat)
    requires Inv(s) && IsDrop(s, i) && Idle(s, i)
    ensures Inv(DropStarted(s, i))
  {
    var t := DropStarted(s, i);
    assert OpOk(s, i);
    assert Moves(s, t, i) && SameStore(s, t);
    TicketsKept(s, t, i);
    KeepsOthers(s, t, i);
  }

  lemma KeepsClearRead(s: State, i: nat, order: seq<Uri>)
    requires Inv(s) && IsDrop(s, i) && s.ops[i].call.Clear? && s.ops[i].phase.ClearReading?
    requires RowsOfHost(s, s.ops[i].call.host, order)
    ensures Inv(At(s, i, Dropping(order)))
  {
    var t := At(s, i, Dropping(order));
    assert Moves(s, t, i) && SameStore(s, t);
    TicketsKept(s, t, i);
    KeepsOthers(s, t, i);
  }

  lemma KeepsClearEnd(s: State, i: nat)
    requires Inv(s) && i < |s.ops| && s.ops[i].call.Clear? && s.ops[i].phase.Dropping? && s.ops[i].phase.todo == []
    ensures Inv(DropEnded(s, i))
  {
    var t := DropEnded(s, i);
    assert OpOk(s, i);
    assert Moves(s, t, i) && SameStore(s, t);
    TicketDrawn(s, t, i);
    KeepsOthers(s, t, i);
  }

  lemma KeepsDropEnd(s: State, i: nat)
    requires Inv(s) && IsDrop(s, i) && s.ops[i].phase.Dropping? && s.ops[i].phase.todo == []
    ensures Inv(DropEnded(s, i))
  {
    if s.ops[i].call.Clear? {
      KeepsClearEnd(s, i);
    } else {
      var t := DropEnded(s, i);
      assert Moves(s, t, i) && SameStore(s, t);
      TicketsKept(s, t, i);
      KeepsOthers(s, t, i);
    }
  }

  lemma DroppedMoves(s: State, i: nat)
    requires Disk(s) && IsDrop(s, i) && OpOk(s, i) && s.ops[i].phase.Dropping? && s.ops[i].phase.todo != []
    requires s.ops[i].phase.todo[0] in s.files
    ensures var t := FileDropped(s, i, true);
      && Moves(s, t, i) && Grows(s, t) && Disk(t)
  {
    assert OfHost(s, s.ops[i].phase.todo[0], s.ops[i].call);
  }

  lemma DroppedRows(s: State, i: nat)
    requires RowsOk(s) && IsDrop(s, i) && OpOk(s, i) && s.ops[i].phase.Dropping? && s.ops[i].phase.todo != []
    requires s.ops[i].phase.todo[0] in s.files
    requires Moves(s, FileDropped(s, i, true), i)
    ensures var t := FileDropped(s, i, true);
      forall k :: k in s.rows && s.rows[k].uri in s.files ==> Backed(t, s.rows[k].uri, k.host)
  {
    var t := FileDropped(s, i, true);
    var u := s.ops[i].phase.todo[0];
    assert OfHost(s, u, s.ops[i].call);
    assert Condemned(t, u, HostOf(s.ops[i].call));
    forall k | k in s.rows && s.rows[k].uri in s.files
      ensures Backed(t, s.rows[k].uri, k.host)
    {
      assert Registered(s, s.rows[k].uri, k);
    }
  }

  lemma DroppedShape(s: State, i: nat)
    requires Fifo(s) && Tickets(s) && IsDrop(s, i) && OpOk(s, i) && s.ops[i].phase.Dropping? && s.ops[i].phase.todo != []
    requires s.ops[i].phase.todo[0] in s.files
    requires var t := FileDropped(s, i, true);
      && Moves(s, t, i) && Grows(s, t)
      && forall k :: k in s.rows && s.rows[k].uri in s.files ==> Backed(t, s.rows[k].uri, k.host)
    ensures var t := FileDropped(s, i, true);
      && SameAttempts(s, t, i) && OtherHosts(s, t, i)
      && (forall j :: 0 <= j < |s.ops| && j != i ==> SamePublication(s, t, j))
  {
    assert OfHost(s, s.ops[i].phase.todo[0], s.ops[i].call);
    forall j | 0 <= j < |s.ops| && j != i && SameHost(s.ops[i].call, s.ops[j].call)
      ensures s.ops[j].phase.Queued? || s.ops[j].phase.Settled?
    {
      Alone(s, i, j);
    }
  }

  lemma DroppedOk(s: State, t: State, i: nat)
    requires IsDrop(s, i) && OpOk(s, i) && s.ops[i].phase.Dropping? && s.ops[i].phase.todo != [] && Disk(s)
    requires Moves(s, t, i) && t.rows == s.rows && t.attempts == s.attempts && t.published == s.published
    requires var todo := s.ops[i].phase.todo; t.ops[i].phase == DroppingRow(todo[0], todo[1..]) && todo[0] !in t.files
    ensures OpOk(t, i)
  {
    var todo := s.ops[i].phase.todo;
    assert [todo[0]] + todo[1..] == todo;
    assert OfHost(s, todo[0], s.ops[i].call);
  }

  lemma KeepsDroppedFile(s: State, i: nat)
    requires Inv(s) && IsDrop(s, i) && s.ops[i].phase.Dropping? && s.ops[i].phase.todo != []
    requires s.ops[i].phase.todo[0] in s.files
    ensures Inv(FileDropped(s, i, true))
  {
    var t := FileDropped(s, i, true);
    assert OpOk(s, i);
    DroppedMoves(s, i);
    DroppedRows(s, i);
    DroppedShape(s, i);
    TicketsKept(s, t, i);
    DroppedOk(s, t, i);
    KeepsClears(s, t, i);
    KeepsRows(s, t);
    KeepsStore(s, t, i);
  }

  lemma KeepsDropFile(s: State, i: nat, ok: bool)
    requires Inv(s) && IsDrop(s, i) && s.ops[i].phase.Dropping? && s.ops[i].phase.todo != []
    ensures Inv(FileDropped(s, i, ok))
  {
    var t := FileDropped(s, i, ok);
    if s.ops[i].phase.todo[0] in s.files && ok {
      KeepsDroppedFile(s, i);
    } else {
      assert OpOk(s, i);
      assert Moves(s, t, i) && SameStore(s, t);
      TicketsKept(s, t, i);
      if s.ops[i].phase.todo[0] !in s.files { DroppedOk(s, t, i); }
      KeepsOthers(s, t, i);
    }
  }

  lemma RowDroppedMoves(s: State, i: nat)
    requires Disk(s) && IsDrop(s, i) && s.ops[i].phase.DroppingRow?
    ensures var t := RowDropped(s, i);
      && Moves(s, t, i) && SameAttempts(s, t, i) && Disk(t)
      && (forall k :: k in t.rows ==> k in s.rows && s.rows[k] == t.rows[k])
  {
  }

  lemma RowDroppedShape(s: State, i: nat)
    requires RowsOk(s) && IsDrop(s, i) && OpOk(s, i) && s.ops[i].phase.DroppingRow?
    requires Moves(s, RowDropped(s, i), i)
    ensures var t := RowDropped(s, i);
      && OtherHosts(s, t, i)
      && (forall j :: 0 <= j < |s.ops| && j != i ==> SamePublication(s, t, j))
  {
  }

  lemma RowIsDropped(s: State, i: nat)
    requires RowsOk(s) && IsDrop(s, i) && OpOk(s, i) && s.ops[i].phase.DroppingRow?
    ensures forall k :: k in RowDropped(s, i).rows ==> RowDropped(s, i).rows[k].uri != s.ops[i].phase.uri
  {
    var t, u := RowDropped(s, i), s.ops[i].phase.uri;
    assert u in [u] + s.ops[i].phase.todo;
    assert OfHost(s, u, s.ops[i].call);
    forall k | k in t.rows
      ensures t.rows[k].uri != u
    {
      assert Registered(s, s.rows[k].uri, k);
    }
  }

  lemma RowDroppedRows(s: State, i: nat)
    requires RowsOk(s) && IsDrop(s, i) && s.ops[i].phase.DroppingRow?
    requires var t := RowDropped(s, i);
      && Moves(s, t, i) && (forall k :: k in t.rows ==> k in s.rows && s.rows[k] == t.rows[k])
      && forall k :: k in t.rows ==> t.rows[k].uri != s.ops[i].phase.uri
    ensures RowsOk(RowDropped(s, i))
  {
    var t := RowDropped(s, i);
    forall k | k in t.rows ensures Registered(t, t.rows[k].uri, k) { assert Registered(s, s.rows[k].uri, k); }
  }

  lemma RowDroppedOk(s: State, i: nat)
    requires IsDrop(s, i) && OpOk(s, i) && s.ops[i].phase.DroppingRow?
    requires var t := RowDropped(s, i);
      && Moves(s, t, i) && (forall k :: k in t.rows ==> k in s.rows && s.rows[k] == t.rows[k])
      && forall k :: k in t.rows ==> t.rows[k].uri != s.ops[i].phase.uri
    ensures OpOk(RowDropped(s, i), i)
  {
    var t, u, todo := RowDropped(s, i), s.ops[i].phase.uri, s.ops[i].phase.todo;
    forall v | v in todo
      ensures OfHost(t, v, s.ops[i].call) && (s.ops[i].call.Remove? ==> v == s.ops[i].call.uri && Owned(t, v, s.ops[i].call.key))
    {
      assert v in [u] + todo;
    }
  }

  lemma KeepsDropRow(s: State, i: nat)
    requires Inv(s) && IsDrop(s, i) && s.ops[i].phase.DroppingRow?
    ensures Inv(RowDropped(s, i))
  {
    var t := RowDropped(s, i);
    assert OpOk(s, i);
    RowDroppedMoves(s, i);
    RowIsDropped(s, i);
    RowDroppedShape(s, i);
    RowDroppedRows(s, i);
    RowDroppedOk(s, i);
    TicketsKept(s, t, i);
    KeepsClears(s, t, i);
    KeepsStore(s, t, i);
  }

  // ---- reconcile and list -------------------------------------------------------------------

  lemma KeepsReconcileStart(s: State, i: nat)
    requires Inv(s) && i < |s.ops| && s.ops[i].phase.ReconcileWaiting? && AtTurn(s, s.ops[i].phase.ticket)
    ensures Inv(ReconcileStarted(s, i))
  {
    var t := ReconcileStarted(s, i);
    assert OpOk(s, i);
    assert Moves(s, t, i) && SameStore(s, t);
    TicketStarts(s, t, i);
    KeepsOthers(s, t, i);
  }

  lemma KeepsRetained(s: State, i: nat)
    requires Inv(s) && i < |s.ops| && s.ops[i].phase.ReconcileReading?
    ensures Inv(RetainedFound(s, i))
  {
    var t := RetainedFound(s, i);
    assert OpOk(s, i);
    assert Moves(s, t, i) && SameStore(s, t);
    TicketsKept(s, t, i);
    KeepsOthers(s, t, i);
  }

  lemma KeepsListRead(s: State, i: nat, found: seq<(Key, Uri)>)
    requires Inv(s) && i < |s.ops| && s.ops[i].phase.ListReading? && s.ops[i].call.List? && RowsListed(s, s.ops[i].call, found)
    ensures Inv(At(s, i, Listing(found)))
  {
    var t := At(s, i, Listing(found));
    assert Moves(s, t, i) && SameStore(s, t);
    forall r | r in found ensures r.1.dir in s.published { assert Registered(s, r.1, r.0); }
    TicketsKept(s, t, i);
    KeepsOthers(s, t, i);
  }

  lemma KeepsListCheck(s: State, i: nat)
    requires Inv(s) && i < |s.ops| && s.ops[i].phase.Listing?
    ensures Inv(ListChecked(s, i))
  {
    var t := ListChecked(s, i);
    assert OpOk(s, i);
    assert Moves(s, t, i) && SameStore(s, t);
    TicketsKept(s, t, i);
    KeepsOthers(s, t, i);
  }

  lemma ListedMoves(s: State, i: nat)
    requires Disk(s) && i < |s.ops| && OpOk(s, i) && s.ops[i].phase.ListDeleting?
    ensures var t := ListedRowDeleted(s, i);
      && Moves(s, t, i) && Grows(s, t) && SameAttempts(s, t, i) && Disk(t)
      && (forall k :: k in t.rows ==> k in s.rows && s.rows[k] == t.rows[k])
  {
  }

  lemma ListedShape(s: State, i: nat)
    requires i < |s.ops| && OpOk(s, i) && s.ops[i].phase.ListDeleting?
    requires Moves(s, ListedRowDeleted(s, i), i)
    ensures var t := ListedRowDeleted(s, i);
      && OtherHosts(s, t, i) && OpOk(t, i)
      && (forall j :: 0 <= j < |s.ops| && j != i ==> SamePublication(s, t, j))
  {
  }

  lemma KeepsListDelete(s: State, i: nat)
    requires Inv(s) && i < |s.ops| && s.ops[i].phase.ListDeleting?
    ensures Inv(ListedRowDeleted(s, i))
  {
    var t := ListedRowDeleted(s, i);
    assert OpOk(s, i);
    ListedMoves(s, i);
    ListedShape(s, i);
    TicketsKept(s, t, i);
    KeepsClears(s, t, i);
    KeepsRows(s, t);
    KeepsStore(s, t, i);
  }

  lemma VisitSparesOwned(s: State, i: nat, victims: set<nat>, ok: bool)
    requires i < |s.ops| && OpOk(s, i) && s.ops[i].phase.ReconcileRead?
    requires Visitable(s, s.ops[i].phase.retained, victims, ok)
    ensures victims <= s.dirs
    ensures forall k :: k in s.rows ==> s.rows[k].uri.dir !in victims
    ensures victims !! s.active
  {
    forall d | d in victims
      ensures d in s.dirs && d !in s.active && forall k :: k in s.rows ==> s.rows[k].uri.dir != d
    {
      assert Unowned(s, s.ops[i].phase.retained, d);
    }
  }

  lemma VisitedMoves(s: State, i: nat, victims: set<nat>, ok: bool)
    requires Fifo(s) && Disk(s) && RowsOk(s) && OpsOk(s) && i < |s.ops| && s.ops[i].phase.ReconcileRead?
    requires Visitable(s, s.ops[i].phase.retained, victims, ok)
    ensures var t := Visited(s, i, victims, ok);
      Moves(s, t, i) && Grows(s, t) && SameAttempts(s, t, i) && OtherHosts(s, t, i) && Disk(t) && RowsOk(t)
  {
    var t := Visited(s, i, victims, ok);
    assert OpOk(s, i);
    VisitSparesOwned(s, i, victims, ok);
    assert s.dirs - t.dirs == victims;
    DeleteShape(s, t, i);
  }

  lemma VisitedRest(s: State, i: nat, victims: set<nat>, ok: bool)
    requires Tickets(s) && i < |s.ops| && s.ops[i].phase.ReconcileRead? && OpOk(s, i)
    requires Moves(s, Visited(s, i, victims, ok), i)
    ensures var t := Visited(s, i, victims, ok);
      && Tickets(t) && OpOk(t, i)
      && forall j :: 0 <= j < |s.ops| && j != i ==> SamePublication(s, t, j)
  {
    TicketEnds(s, Visited(s, i, victims, ok), i);
  }

  lemma VisitedClears(s: State, i: nat, victims: set<nat>, ok: bool)
    requires ClearsOk(s) && i < |s.ops| && s.ops[i].phase.ReconcileRead? && OpOk(s, i)
    requires Moves(s, Visited(s, i, victims, ok), i) && Grows(s, Visited(s, i, victims, ok))
    ensures ClearsOk(Visited(s, i, victims, ok))
  {
    KeepsClears(s, Visited(s, i, victims, ok), i);
  }

  lemma KeepsVisit(s: State, i: nat, victims: set<nat>, ok: bool)
    requires Inv(s) && i < |s.ops| && s.ops[i].phase.ReconcileRead?
    requires Visitable(s, s.ops[i].phase.retained, victims, ok)
    ensures Inv(Visited(s, i, victims, ok))
  {
    var t := Visited(s, i, victims, ok);
    assert OpOk(s, i);
    VisitedMoves(s, i, victims, ok);
    VisitedRest(s, i, victims, ok);
    VisitedClears(s, i, victims, ok);
    KeepsStore(s, t, i);
  }

  // ---- calls, cancellation and the end of the process -------------------------------------

  lemma ClearsStay(s: State, t: State)
    requires ClearsOk(s) && t.rows == s.rows && t.attempts == s.attempts
    requires forall c, h :: DoneClear(t, c, h) ==> DoneClear(s, c, h)
    ensures ClearsOk(t)
  {
    forall k | k in t.rows
      ensures AfterClears(t, t.rows[k].uri, k.host)
    {
      assert AfterClears(s, s.rows[k].uri, k.host);
    }
  }

  /** A step that adds at most one call and changes no phase, no table and no file. */
  lemma KeepsCalls(s: State, t: State)
    requires Inv(s) && Tickets(t) && Fifo(t) && SameStore(s, t)
    requires |s.ops| <= |t.ops| <= |s.ops| + 1
    requires forall j :: 0 <= j < |s.ops| ==> t.ops[j].call == s.ops[j].call && t.ops[j].phase == s.ops[j].phase
    requires |t.ops| == |s.ops| + 1 ==> !t.ops[|s.ops|].phase.Settled? && OpOk(t, |s.ops|)
    ensures Inv(t)
  {
    assert Grows(s, t);
    assert forall c, h :: DoneClear(t, c, h) ==> DoneClear(s, c, h);
    ClearsStay(s, t);
    KeepsRows(s, t);
    forall j | 0 <= j < |t.ops|
      ensures OpOk(t, j)
    {
      if j < |s.ops| { OpFrame(s, t, |s.ops|, j); }
    }
  }

  lemma KeepsCall(s: State, c: Call, generation: nat)
    requires Inv(s) && Hosted(c) && (c.Remove? ==> WasRow(s, c.key, c.uri))
    ensures Inv(Called(s, c, generation, Queued))
  {
    KeepsCalls(s, Called(s, c, generation, Queued));
  }

  lemma ClearIsQueued(s: State, host: string)
    ensures var t := CalledClear(s, host);
      && SameStore(s, t)
      && |t.ops| == |s.ops| + 1 && t.ops[|s.ops|] == Op(Clear(host), 0, false, Queued)
      && forall j :: 0 <= j < |s.ops| ==> t.ops[j].call == s.ops[j].call && t.ops[j].phase == s.ops[j].phase
  {
  }

  /** One more queued operation changes neither queue. */
  lemma QueuedOneMore(s: State, t: State)
    requires Fifo(s) && Tickets(s)
    requires |t.ops| == |s.ops| + 1 && t.ops[|s.ops|].phase.Queued?
    requires forall j :: 0 <= j < |s.ops| ==> t.ops[j].call == s.ops[j].call && t.ops[j].phase == s.ops[j].phase
    requires t.issued == s.issued && t.served == s.served && t.holder == s.holder && t.tickets == s.tickets
    ensures Fifo(t) && Tickets(t)
  {
  }

  lemma KeepsCallClear(s: State, host: string)
    requires Inv(s)
    ensures Inv(CalledClear(s, host))
  {
    ClearIsQueued(s, host);
    QueuedOneMore(s, CalledClear(s, host));
    KeepsCalls(s, CalledClear(s, host));
  }

  lemma ReconcileIsQueued(s: State, c: Call)
    requires Fifo(s) && Tickets(s) && (c.List? || c.Reconcile?)
    ensures var t := CalledReconcile(s, c);
      && Fifo(t) && Tickets(t) && SameStore(s, t)
      && |t.ops| == |s.ops| + 1 && t.ops[|s.ops|] == Op(c, 0, false, ReconcileWaiting(s.issued))
      && forall j :: 0 <= j < |s.ops| ==> t.ops[j] == s.ops[j]
  {
  }

  lemma KeepsCallReconcile(s: State, c: Call)
    requires Inv(s) && (c.List? || c.Reconcile?)
    ensures Inv(CalledReconcile(s, c))
  {
    ReconcileIsQueued(s, c);
    KeepsCalls(s, CalledReconcile(s, c));
  }

  lemma KeepsCancel(s: State, i: nat)
    requires Inv(s) && i < |s.ops|
    ensures Inv(Cancelled(s, i))
  {
    KeepsCalls(s, Cancelled(s, i));
  }

  lemma RestartedRows(s: State)
    requires RowsOk(s)
    ensures RowsOk(Restarted(s))
  {
    var t := Restarted(s);
    forall k | k in t.rows
      ensures Registered(t, t.rows[k].uri, k)
    {
      assert Registered(s, s.rows[k].uri, k);
    }
  }

  lemma RestartedQueues(s: State)
    requires Disk(s)
    ensures Fifo(Restarted(s)) && Tickets(Restarted(s)) && Disk(Restarted(s)) && OpsOk(Restarted(s))
  {
  }

  lemma KeepsRestart(s: State)
    requires Inv(s)
    ensures Inv(Restarted(s))
  {
    RestartedRows(s);
    RestartedQueues(s);
    ClearsStay(s, Restarted(s));
  }

  lemma KeepsSaveStep(s: State, i: nat, e: SaveEvent)
    requires Inv(s) && i < |s.ops| && s.ops[i].call.Save? && SaveEnabled(s, i, e)
    ensures Inv(SaveStep(s, i, e))
  {
    match e
    case StartSave => KeepsStart(s, i);
    case RowIsRead => KeepsRead(s, i);
    case BeginAttempt(dir) => KeepsBegin(s, i, dir);
    case TransferDone => KeepsTransfer(s, i);
    case CheckTransfer(accepted, name) => KeepsCheck(s, i, accepted, name);
    case MoveDone => KeepsMove(s, i);
    case Enqueue => KeepsEnqueue(s, i);
    case StartPublication(size, now) => KeepsPublication(s, i, size, now);
    case InsertDone => KeepsInsert(s, i);
    case AfterInsert(oldDeleted) => KeepsInsertChecked(s, i, oldDeleted);
    case RestoreDone => KeepsRestore(s, i);
    case AfterRestore => KeepsRestoreSettled(s, i);
    case Cleanup(deleted) => KeepsCleanup(s, i, deleted);
    case FinishSave => KeepsFinish(s, i);
  }

  lemma KeepsDropStep(s: State, i: nat, e: DropEvent)
    requires Inv(s) && IsDrop(s, i) && DropEnabled(s, i, e)
    ensures Inv(DropStep(s, i, e))
  {
    match e
    case StartDrop => KeepsDropStart(s, i);
    case ClearRead(order) => KeepsClearRead(s, i, order);
    case DropFile(ok) => KeepsDropFile(s, i, ok);
    case DropRow => KeepsDropRow(s, i);
    case DropEnd => KeepsDropEnd(s, i);
  }

  lemma KeepsListStep(s: State, i: nat, e: ListEvent)
    requires Inv(s) && i < |s.ops| && ListEnabled(s, i, e)
    ensures Inv(ListStep(s, i, e))
  {
    match e
    case StartReconcile => KeepsReconcileStart(s, i);
    case RetainedRead => KeepsRetained(s, i);
    case Visit(victims, ok) => KeepsVisit(s, i, victims, ok);
    case ListRead(found) => KeepsListRead(s, i, found);
    case ListCheck => KeepsListCheck(s, i);
    case ListRowDeleted => KeepsListDelete(s, i);
  }

  /** Every step, from every state that satisfies the invariant. */
  lemma KeepsStep(s: State, e: Event)
    requires Inv(s) && Enabled(s, e)
    ensures Inv(Apply(s, e))
  {
    match e
    case CallSave(key, title) => KeepsCall(s, Save(key, title), Generation(s, key.host));
    case CallClear(host) => KeepsCallClear(s, host);
    case CallRemove(key, u) => KeepsCall(s, Remove(key, u), 0);
    case CallList(host, profile) => KeepsCallReconcile(s, List(host, profile));
    case CallReconcile => KeepsCallReconcile(s, Reconcile);
    case Cancel(i) => KeepsCancel(s, i);
    case Restart => KeepsRestart(s);
    case AwaitFails(i) => KeepsFailure(s, i);
    case OfSave(i, save) => KeepsSaveStep(s, i, save);
    case OfDrop(i, drop) => KeepsDropStep(s, i, drop);
    case OfList(i, list) => KeepsListStep(s, i, list);
  }
}
