/** What removes, clears, reconciles and lists do when no one disturbs them. */
module DownloadDrops {
  import opened Options
  import opened DownloadModel
  import opened DownloadInvariant
  import opened DownloadRuns
  import opened DownloadOutcomes

  // ---- dropping files and their rows ------------------------------------------------------

  predicate IsGone(c: Call, k: Key, u: Uri, gone: seq<Uri>)
    requires c.Clear? || c.Remove?
  {
    u in gone && (if c.Clear? then k.host == c.host else k == c.key)
  }

  /** `t` is `s` without the files `gone` and the rows of the call that name them. */
  ghost predicate DroppedTo(s: State, t: State, i: nat, gone: seq<Uri>, todo: seq<Uri>)
    requires i < |s.ops| && IsDrop(s, i)
  {
    && t.ops == s.ops[i := s.ops[i].(phase := Dropping(todo))]
    && (forall u :: u in t.files <==> u in s.files && u !in gone)
    && (forall k :: k in t.rows <==> k in s.rows && !IsGone(s.ops[i].call, k, s.rows[k].uri, gone))
    && (forall k :: k in t.rows ==> t.rows[k] == s.rows[k])
    && t.dirs == s.dirs && t.active == s.active && t.holder == s.holder && t.issued == s.issued && t.served == s.served
  }

  lemma OneDropShape(s: State, i: nat, u: Uri, todo: seq<Uri>)
    requires i < |s.ops| && IsDrop(s, i) && s.ops[i].phase == Dropping([u] + todo)
    ensures FileDropped(s, i, true).ops[i].phase == DroppingRow(u, todo)
    ensures DroppedTo(s, RowDropped(FileDropped(s, i, true), i), i, [u], todo)
  {
    assert ([u] + todo)[0] == u && ([u] + todo)[1..] == todo;
  }

  lemma OneDropRuns(s: State, i: nat, u: Uri, todo: seq<Uri>) returns (t: State)
    requires i < |s.ops| && IsDrop(s, i) && s.ops[i].phase == Dropping([u] + todo)
    ensures Leads(s, [OfDrop(i, DropFile(true)), OfDrop(i, DropRow)], t) && DroppedTo(s, t, i, [u], todo)
  {
    var file, row := OfDrop(i, DropFile(true)), OfDrop(i, DropRow);
    OneDropShape(s, i, u, todo);
    assert Leads(s, [], s);
    LeadsOn(s, [], s, file);
    assert [] + [file] == [file];
    LeadsOn(s, [file], FileDropped(s, i, true), row);
    assert [file] + [row] == [file, row];
    t := RowDropped(FileDropped(s, i, true), i);
  }

  lemma DroppedTwice(s: State, m: State, t: State, i: nat, todo: seq<Uri>)
    requires i < |s.ops| && IsDrop(s, i) && todo != [] && DroppedTo(s, m, i, [todo[0]], todo[1..])
    requires DroppedTo(m, t, i, todo[1..], [])
    ensures DroppedTo(s, t, i, todo, [])
  {
    assert forall u :: u in todo <==> u == todo[0] || u in todo[1..];
  }

  lemma {:induction false} DropsRun(s: State, i: nat, todo: seq<Uri>) returns (events: seq<Event>, t: State)
    requires i < |s.ops| && IsDrop(s, i) && s.ops[i].phase == Dropping(todo)
    ensures Leads(s, events, t) && DroppedTo(s, t, i, todo, [])
    decreases |todo|
  {
    if todo == [] {
      events, t := [], s;
    } else {
      assert [todo[0]] + todo[1..] == todo;
      var first := OneDropRuns(s, i, todo[0], todo[1..]);
      events, t := DropsRun(first, i, todo[1..]);
      LeadsThen(s, [OfDrop(i, DropFile(true)), OfDrop(i, DropRow)], first, events, t);
      events := [OfDrop(i, DropFile(true)), OfDrop(i, DropRow)] + events;
      DroppedTwice(s, first, t, i, todo);
    }
  }

  /** From the call of a remove or a clear to its list of files. */
  lemma DropStarts(s: State, call: Event, started: State)
    requires AllSettled(s) && (call.CallRemove? || call.CallClear?) && Enabled(s, call)
    requires Enabled(Apply(s, call), OfDrop(|s.ops|, StartDrop)) && started == Apply(Apply(s, call), OfDrop(|s.ops|, StartDrop))
    ensures Leads(s, [call, OfDrop(|s.ops|, StartDrop)], started)
  {
    assert Leads(s, [], s);
    LeadsOn(s, [], s, call);
    assert [] + [call] == [call];
    LeadsOn(s, [call], Apply(s, call), OfDrop(|s.ops|, StartDrop));
    assert [call] + [OfDrop(|s.ops|, StartDrop)] == [call, OfDrop(|s.ops|, StartDrop)];
  }

  lemma DropsTo(s: State, call: Event, first: seq<Event>, from: State, i: nat, todo: seq<Uri>) returns (events: seq<Event>, t: State)
    requires i < |from.ops| && IsDrop(from, i) && from.ops[i].phase == Dropping(todo)
    requires Leads(s, [call] + first, from)
    ensures DroppedTo(from, t, i, todo, []) && i < |t.ops| && Leads(s, [call] + events, DropEnded(t, i))
  {
    var drops;
    drops, t := DropsRun(from, i, todo);
    LeadsThen(s, [call] + first, from, drops, t);
    LeadsOn(s, [call] + first + drops, t, OfDrop(i, DropEnd));
    events := first + drops + [OfDrop(i, DropEnd)];
    assert [call] + events == [call] + first + drops + [OfDrop(i, DropEnd)];
  }

  /** An undisturbed remove takes exactly its file, and its key's row if that still names the file. */
  lemma UndisturbedRemove(s: State, key: Key, u: Uri) returns (events: seq<Event>, t: State)
    requires AllSettled(s) && WasRow(s, key, u)
    ensures Leads(s, [CallRemove(key, u)] + events, t)
    ensures |t.ops| == |s.ops| + 1 && t.ops[|s.ops|].phase == Settled(true)
    ensures t.files == s.files - {u}
    ensures t.rows == if key in s.rows && s.rows[key].uri == u then s.rows - {key} else s.rows
  {
    var i, call := |s.ops|, CallRemove(key, u);
    var started := DropStarted(Called(s, Remove(key, u), 0, Queued), i);
    DropStarts(s, call, started);
    assert [call] + [OfDrop(i, StartDrop)] == [call, OfDrop(i, StartDrop)];
    events, t := DropsTo(s, call, [OfDrop(i, StartDrop)], started, i, [u]);
    RemovedRows(started, t, i, key, u);
    t := DropEnded(t, i);
  }

  lemma RemovedRows(s: State, t: State, i: nat, key: Key, u: Uri)
    requires i < |s.ops| && s.ops[i].call == Remove(key, u) && DroppedTo(s, t, i, [u], [])
    ensures t.files == s.files - {u}
    ensures t.rows == if key in s.rows && s.rows[key].uri == u then s.rows - {key} else s.rows
  {
  }

  lemma AbortsNothing(ops: seq<Op>, host: string)
    requires forall i :: 0 <= i < |ops| ==> ops[i].phase.Settled?
    ensures AbortHost(ops, host) == ops
  {
  }

  lemma ClearShape(s: State, host: string, order: seq<Uri>)
    requires forall i :: 0 <= i < |s.ops| ==> s.ops[i].phase.Settled?
    ensures At(DropStarted(CalledClear(s, host), |s.ops|), |s.ops|, Dropping(order)) ==
      s.(generations := s.generations[host := Generation(s, host) + 1], ops := s.ops + [Op(Clear(host), 0, false, Dropping(order))])
  {
    AbortsNothing(s.ops, host);
  }

  lemma ClearStarts(s: State, host: string, order: seq<Uri>) returns (first: seq<Event>, t: State)
    requires AllSettled(s) && RowsOfHost(s, host, order)
    ensures Leads(s, [CallClear(host)] + first, t)
    ensures t == s.(generations := s.generations[host := Generation(s, host) + 1], ops := s.ops + [Op(Clear(host), 0, false, Dropping(order))])
  {
    var i, call := |s.ops|, CallClear(host);
    var started := DropStarted(CalledClear(s, host), i);
    DropStarts(s, call, started);
    LeadsOn(s, [call, OfDrop(i, StartDrop)], started, OfDrop(i, ClearRead(order)));
    first := [OfDrop(i, StartDrop), OfDrop(i, ClearRead(order))];
    assert [call] + first == [call, OfDrop(i, StartDrop)] + [OfDrop(i, ClearRead(order))];
    t := At(started, i, Dropping(order));
    ClearShape(s, host, order);
  }

  // ---- reconciles ----------------------------------------------------------------------------

  /** Directories that are neither active nor hold a row. */
  ghost function Unkept(s: State): set<nat> { set d | d in s.dirs && d !in s.active && forall k :: k in s.rows ==> s.rows[k].uri.dir != d }

  /** `t` is `s` without the directories no one keeps. */
  ghost predicate Reconciled(s: State, t: State, i: nat)
    requires i < |s.ops|
  {
    && t.ops == s.ops[i := s.ops[i].(phase := AfterReconcile(s.ops[i].call))]
    && t.rows == s.rows && t.dirs == s.dirs - Unkept(s) && t.active == s.active
    && (forall u :: u in t.files <==> u in s.files && u.dir !in Unkept(s))
  }

  lemma ReconcileRuns(s: State, i: nat) returns (events: seq<Event>, t: State)
    requires i < |s.ops| && s.ops[i].phase == ReconcileWaiting(s.served) && s.holder.None?
    ensures Leads(s, events, t) && Reconciled(s, t, i)
  {
    var start, read := OfList(i, StartReconcile), OfList(i, RetainedRead);
    assert Leads(s, [], s);
    LeadsOn(s, [], s, start);
    assert [] + [start] == [start];
    var r := RetainedFound(ReconcileStarted(s, i), i);
    LeadsOn(s, [start], ReconcileStarted(s, i), read);
    RetainedNames(s, r, i);
    var visit := OfList(i, Visit(Unkept(s), true));
    LeadsOn(s, [start] + [read], r, visit);
    events := [start] + [read] + [visit];
    t := Visited(r, i, Unkept(s), true);
  }

  lemma RetainedNames(s: State, r: State, i: nat)
    requires i < |s.ops| && r == RetainedFound(ReconcileStarted(s, i), i)
    ensures Visitable(r, r.ops[i].phase.retained, Unkept(s), true)
  {
    var retained := r.ops[i].phase.retained;
    forall d ensures Unowned(r, retained, d) <==> d in Unkept(s) {
      if d in s.dirs && d !in s.active && Unowned(r, retained, d) {
        forall k | k in s.rows ensures s.rows[k].uri.dir != d { assert s.rows[k].uri in retained; }
      }
    }
  }

  /** A reconcile that no one disturbs resolves and deletes exactly the directories no one keeps. */
  lemma UndisturbedReconcile(s: State) returns (events: seq<Event>, t: State)
    requires Tickets(s) && AllSettled(s)
    ensures Leads(s, [CallReconcile] + events, t)
    ensures |t.ops| == |s.ops| + 1 && t.ops[|s.ops|].phase == Settled(true)
    ensures t.rows == s.rows && t.dirs == s.dirs - Unkept(s)
    ensures forall u :: u in t.files <==> u in s.files && u.dir !in Unkept(s)
  {
    QueueIsIdle(s);
    var called := CalledReconcile(s, Reconcile);
    assert Leads(s, [], s);
    LeadsOn(s, [], s, CallReconcile);
    assert [] + [CallReconcile] == [CallReconcile];
    events, t := ReconcileRuns(called, |s.ops|);
    LeadsThen(s, [CallReconcile], called, events, t);
  }

  // ---- clears -----------------------------------------------------------------------------------

  /** What is left after a clear's deletions and its reconcile. */
  ghost predicate ClearedTo(s: State, t: State, host: string) {
    && (forall k :: k in t.rows <==> k in s.rows && k.host != host)
    && (forall k :: k in t.rows ==> t.rows[k] == s.rows[k])
    && (forall u :: u in t.files <==> u in s.files && exists k :: k in s.rows && k.host != host && s.rows[k].uri.dir == u.dir)
  }

  lemma NothingIsActive(s: State)
    requires ActiveOk(s) && AllSettled(s)
    ensures s.active == {}
  {
    assert forall d :: d in s.active ==> SavingIn(s, d);
  }

  lemma ClearedRows(s: State, from: State, t: State, i: nat, host: string, order: seq<Uri>)
    requires i < |from.ops| && from.ops[i].call == Clear(host) && RowsOfHost(s, host, order) && from.rows == s.rows
    requires DroppedTo(from, t, i, order, [])
    ensures forall k :: k in t.rows <==> k in s.rows && k.host != host
    ensures forall k :: k in t.rows ==> t.rows[k] == s.rows[k]
  {
  }

  /** A file a clear deletes lies in no directory of another host's row. */
  lemma ClearedFiles(s: State, host: string, order: seq<Uri>, k: Key, u: Uri)
    requires RowsOk(s) && RowsOfHost(s, host, order) && k in s.rows && k.host != host && u in order
    ensures s.rows[k].uri.dir != u.dir
  {
    assert exists k' :: k' in s.rows && k'.host == host && s.rows[k'].uri == u;
    var k' :| k' in s.rows && k'.host == host && s.rows[k'].uri == u;
    assert Registered(s, s.rows[k].uri, k) && Registered(s, s.rows[k'].uri, k');
  }

  lemma ClearedShape(s: State, m: State, t: State, host: string, order: seq<Uri>)
    requires RowsOk(s) && Disk(s) && s.active == {} && RowsOfHost(s, host, order)
    requires forall k :: k in m.rows <==> k in s.rows && k.host != host
    requires forall k :: k in m.rows ==> m.rows[k] == s.rows[k]
    requires forall u :: u in m.files <==> u in s.files && u !in order
    requires m.dirs == s.dirs && m.active == s.active && t.rows == m.rows
    requires forall u :: u in t.files <==> u in m.files && u.dir !in Unkept(m)
    ensures ClearedTo(s, t, host)
  {
    forall u | u in s.files
      ensures u in t.files <==> exists k :: k in s.rows && k.host != host && s.rows[k].uri.dir == u.dir
    {
      if k :| k in s.rows && k.host != host && s.rows[k].uri.dir == u.dir {
        assert k in m.rows;
        if u in order { ClearedFiles(s, host, order, k, u); }
      }
    }
  }

  /**
   From every state with all operations settled, and in whatever order it reads the rows: a clear that no one disturbs
   resolves, and leaves exactly the other hosts' rows and the files in their directories.
   */
  lemma UndisturbedClear(s: State, host: string, order: seq<Uri>) returns (events: seq<Event>, t: State)
    requires Inv(s) && ActiveOk(s) && AllSettled(s) && RowsOfHost(s, host, order)
    ensures Leads(s, [CallClear(host)] + events, t)
    ensures |t.ops| == |s.ops| + 1 && t.ops[|s.ops|].phase == Settled(true)
    ensures ClearedTo(s, t, host)
  {
    var i, call := |s.ops|, CallClear(host);
    QueueIsIdle(s);
    NothingIsActive(s);
    var first, from := ClearStarts(s, host, order);
    var m;
    events, m := DropsTo(s, call, first, from, i, order);
    ClearedRows(s, from, m, i, host, order);
    var last;
    last, t := ReconcileRuns(DropEnded(m, i), i);
    LeadsThen(s, [call] + events, DropEnded(m, i), last, t);
    assert [call] + events + last == [call] + (events + last);
    events := events + last;
    ClearedShape(s, DropEnded(m, i), t, host, order);
  }

  // ---- lists ------------------------------------------------------------------------------------

  /** A row that a list found and whose file is missing. */
  predicate IsMissing(s: State, k: Key, found: seq<(Key, Uri)>)
    requires k in s.rows
  {
    (k, s.rows[k].uri) in found && s.rows[k].uri !in s.files
  }

  ghost predicate ListedTo(s: State, t: State, i: nat, found: seq<(Key, Uri)>, phase: Phase)
    requires i < |s.ops|
  {
    && t.ops == s.ops[i := s.ops[i].(phase := phase)] && t.files == s.files
    && (forall k :: k in t.rows <==> k in s.rows && !IsMissing(s, k, found))
    && (forall k :: k in t.rows ==> t.rows[k] == s.rows[k])
  }

  lemma OneListedShape(s: State, i: nat, row: (Key, Uri), rest: seq<(Key, Uri)>)
    requires i < |s.ops| && s.ops[i].phase == Listing([row] + rest)
    ensures
      var t := ListChecked(s, i);
      if row.1 in s.files then ListedTo(s, t, i, [row], Listing(rest))
      else t.ops[i].phase == ListDeleting(row.0, row.1, rest) && ListedTo(s, ListedRowDeleted(t, i), i, [row], Listing(rest))
  {
    assert ([row] + rest)[0] == row && ([row] + rest)[1..] == rest;
  }

  lemma OneListedRuns(s: State, i: nat, row: (Key, Uri), rest: seq<(Key, Uri)>) returns (events: seq<Event>, t: State)
    requires i < |s.ops| && s.ops[i].phase == Listing([row] + rest)
    ensures Leads(s, events, t) && ListedTo(s, t, i, [row], Listing(rest))
  {
    var check := OfList(i, ListCheck);
    OneListedShape(s, i, row, rest);
    assert Leads(s, [], s);
    LeadsOn(s, [], s, check);
    assert [] + [check] == [check];
    events, t := [check], ListChecked(s, i);
    if row.1 !in s.files {
      LeadsOn(s, events, t, OfList(i, ListRowDeleted));
      events, t := events + [OfList(i, ListRowDeleted)], ListedRowDeleted(t, i);
    }
  }

  lemma {:induction false} ListingRuns(s: State, i: nat, found: seq<(Key, Uri)>) returns (events: seq<Event>, t: State)
    requires i < |s.ops| && s.ops[i].phase == Listing(found)
    ensures Leads(s, events, t) && ListedTo(s, t, i, found, Settled(true))
    decreases |found|
  {
    if found == [] {
      var check := OfList(i, ListCheck);
      assert Leads(s, [], s);
      LeadsOn(s, [], s, check);
      events, t := [] + [check], ListChecked(s, i);
    } else {
      assert [found[0]] + found[1..] == found;
      var first, u := OneListedRuns(s, i, found[0], found[1..]);
      events, t := ListingRuns(u, i, found[1..]);
      LeadsThen(s, first, u, events, t);
      events := first + events;
    }
  }

  /** A reconcile deletes no row's file. */
  lemma RowFilesStay(s: State, r: State, i: nat, k: Key)
    requires i < |s.ops| && Reconciled(s, r, i) && k in s.rows
    ensures s.rows[k].uri in r.files <==> s.rows[k].uri in s.files
  {
  }

  lemma ListReconciles(s: State, host: string, profile: string) returns (events: seq<Event>, t: State)
    requires Tickets(s) && AllSettled(s)
    ensures Leads(s, [CallList(host, profile)] + events, t)
    ensures t.ops == s.ops + [Op(List(host, profile), 0, false, ListReading)] && t.rows == s.rows
    ensures forall k :: k in s.rows ==> (s.rows[k].uri in t.files <==> s.rows[k].uri in s.files)
  {
    QueueIsIdle(s);
    var call := CallList(host, profile);
    var called := CalledReconcile(s, List(host, profile));
    assert Leads(s, [], s);
    LeadsOn(s, [], s, call);
    assert [] + [call] == [call];
    events, t := ReconcileRuns(called, |s.ops|);
    LeadsThen(s, [call], called, events, t);
    forall k | k in s.rows ensures s.rows[k].uri in t.files <==> s.rows[k].uri in s.files { RowFilesStay(called, t, |s.ops|, k); }
  }

  /**
   From every state with all operations settled, and in whatever order it reads the rows: a list that no one disturbs
   resolves, and drops exactly the profile's rows whose files are missing.
   */
  lemma UndisturbedList(s: State, host: string, profile: string, found: seq<(Key, Uri)>) returns (events: seq<Event>, t: State)
    requires Tickets(s) && AllSettled(s) && RowsListed(s, List(host, profile), found)
    ensures Leads(s, [CallList(host, profile)] + events, t)
    ensures |t.ops| == |s.ops| + 1 && t.ops[|s.ops|].phase == Settled(true)
    ensures forall k :: k in t.rows <==> k in s.rows && (k.host == host && k.profile == profile ==> s.rows[k].uri in s.files)
    ensures forall k :: k in t.rows ==> t.rows[k] == s.rows[k]
  {
    var i, call := |s.ops|, CallList(host, profile);
    var r;
    events, r := ListReconciles(s, host, profile);
    LeadsOn(s, [call] + events, r, OfList(i, ListRead(found)));
    var last;
    last, t := ListingRuns(At(r, i, Listing(found)), i, found);
    LeadsThen(s, [call] + events + [OfList(i, ListRead(found))], At(r, i, Listing(found)), last, t);
    assert [call] + events + [OfList(i, ListRead(found))] + last == [call] + (events + [OfList(i, ListRead(found))] + last);
    events := events + [OfList(i, ListRead(found))] + last;
  }
}
