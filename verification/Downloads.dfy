/**
 The module-level variables, tables and files of mobileDownloads.ts, and the code that changes them, one method for
 each stretch of code between two awaits.  Each method does exactly its step of the model, so it keeps the invariant
 and everything DownloadRuns proves about runs.
 */
module Downloads {
  import opened Options
  import opened DownloadModel
  import opened DownloadInvariant

  lemma BeginShape(s: State, i: nat, dir: nat)
    requires i < |s.ops| && s.ops[i].call.Save? && s.ops[i].phase.RowRead?
    ensures Begun(s, i, dir) ==
      if Current(s, i) then
        At(s.(dirs := s.dirs + {dir}, active := s.active + {dir}, attempts := s.attempts[dir := i]), i,
           Saving(Attempt(dir, Uri(dir, MEDIA), s.ops[i].phase.previous), Transferring))
      else At(s, i, Settled(false))
  {
    if Current(s, i) {
      assert Begun(s, i, dir).attempts == s.attempts[dir := i];
    } else {
      assert Begun(s, i, dir).attempts == s.attempts && Begun(s, i, dir).dirs == s.dirs && Begun(s, i, dir).active == s.active;
    }
  }

  lemma CheckShape(s: State, i: nat, oldDeleted: bool)
    requires InStage(s, i) && s.ops[i].phase.stage.Inserted?
    ensures
      var a, row := s.ops[i].phase.a, s.ops[i].phase.stage.row;
      InsertChecked(s, i, oldDeleted) ==
        if Current(s, i) then
          At(Release(s.(files := if oldDeleted then s.files - Replaced(a) else s.files), true), i, Saving(a, Published(row)))
        else At(s, i, Saving(a, Restoring(row)))
  {
  }

  lemma ClearShape(s: State, host: string)
    ensures CalledClear(s, host) ==
      s.(generations := s.generations[host := Generation(s, host) + 1],
         ops := AbortHost(s.ops, host) + [Op(Clear(host), 0, false, Queued)])
  {
  }

  lemma VisitSpares(s: State, i: nat, victims: set<nat>, ok: bool)
    requires OpsOk(s) && i < |s.ops| && s.ops[i].phase.ReconcileRead? && Visitable(s, s.ops[i].phase.retained, victims, ok)
    ensures forall k :: k in s.rows ==> s.rows[k].uri.dir !in victims
    ensures s.ops[i].call.Clear? ==> NoRows(s, s.ops[i].call.host)
  {
    assert OpOk(s, i);
    VisitSparesOwned(s, i, victims, ok);
  }

  class DownloadManager {
    var rows: map<Key, Row>               // the mobile_downloads table
    var files: set<Uri>
    var dirs: set<nat>
    var active: set<nat>                  // activeDirectories
    var generations: map<string, nat>     // hostGenerations
    var ops: seq<Op>                      // calls, in order: `mutations` and the suspended async functions
    var issued: nat                       // `publications`: tickets drawn, tickets served, and who runs
    var served: nat
    var holder: Option<nat>
    ghost var attempts: map<nat, nat>
    ghost var published: set<nat>
    ghost var condemned: map<Uri, nat>
    ghost var tickets: map<nat, nat>

    ghost function View(): State
      reads this
    {
      State(rows, files, dirs, active, generations, ops, issued, served, holder, attempts, published, condemned, tickets)
    }

    ghost predicate Valid()
      reads this
    {
      Inv(View())
    }

    constructor ()
      ensures Valid() && View() == Fresh()
    {
      rows, files, dirs, active, generations, ops := map[], {}, {}, {}, map[], [];
      issued, served, holder := 0, 0, None;
      attempts, published, condemned, tickets := map[], {}, map[], map[];
      new;
      FreshIsFine();
    }

    function HostGeneration(host: string): nat
      reads this
    {
      if host in generations then generations[host] else 0
    }

    /** Save `i` was not aborted, and its host not cleared since the call. */
    predicate IsCurrent(i: nat)
      requires i < |ops| && ops[i].call.Save?
      reads this
      ensures IsCurrent(i) <==> Current(View(), i)
    {
      !ops[i].cancelled && ops[i].generation == HostGeneration(ops[i].call.key.host)
    }

    method GoTo(i: nat, p: Phase)
      requires i < |ops|
      modifies this`ops
      ensures View() == At(old(View()), i, p)
    {
      ops := ops[i := ops[i].(phase := p)];
    }

    /** The next place in the queue of publications. */
    method Publish(i: nat) returns (ticket: nat)
      modifies this`issued, this`tickets
      ensures ticket == old(issued) && View() == Draw(old(View()), true, i)
    {
      ticket := issued;
      issued := issued + 1;
      tickets := tickets[ticket := i];
    }

    method EndPublication()
      modifies this`holder, this`served
      ensures View() == Release(old(View()), true)
    {
      holder := None;
      served := served + 1;
    }

    // ---- calls -----------------------------------------------------------------------

    method SaveDownload(key: Key, title: string) returns (i: nat)
      requires Valid()
      modifies this
      ensures i == |old(ops)| && View() == Apply(old(View()), CallSave(key, title)) && Valid()
    {
      KeepsStep(View(), CallSave(key, title));
      i := |ops|;
      ops := ops + [Op(Save(key, title), HostGeneration(key.host), false, Queued)];
    }

    method ClearDownloads(host: string) returns (i: nat)
      requires Valid()
      modifies this
      ensures i == |old(ops)| && View() == Apply(old(View()), CallClear(host)) && Valid()
      ensures forall j :: 0 <= j < i && ops[j].call.Save? && ops[j].call.key.host == host && !ops[j].phase.Settled? ==> ops[j].cancelled
    {
      KeepsStep(View(), CallClear(host));
      i := QueueClear(host);
    }

    /** The part of a clear that runs at its call. */
    method QueueClear(host: string) returns (i: nat)
      modifies this`generations, this`ops
      ensures i == |old(ops)| && View() == CalledClear(old(View()), host)
      ensures forall j :: 0 <= j < i && ops[j].call.Save? && ops[j].call.key.host == host && !ops[j].phase.Settled? ==> ops[j].cancelled
    {
      ClearShape(View(), host);
      generations := generations[host := HostGeneration(host) + 1];
      AbortTransfers(host);
      i := |ops|;
      ops := ops + [Op(Clear(host), 0, false, Queued)];
    }

    /** Aborts the transfers of the host. */
    method AbortTransfers(host: string)
      modifies this`ops
      ensures ops == AbortHost(old(ops), host)
    {
      var j := 0;
      while j < |ops|
        invariant j <= |ops| == |old(ops)|
        invariant forall k :: 0 <= k < |ops| ==> ops[k] == if k < j then AbortHost(old(ops), host)[k] else old(ops)[k]
      {
        if ops[j].call.Save? && ops[j].call.key.host == host && !ops[j].phase.Settled? {
          ops := ops[j := ops[j].(cancelled := true)];
        }
        j := j + 1;
      }
    }

    method RemoveDownload(key: Key, uri: Uri) returns (i: nat)
      requires Valid() && WasRow(View(), key, uri)
      modifies this
      ensures i == |old(ops)| && View() == Apply(old(View()), CallRemove(key, uri)) && Valid()
    {
      KeepsStep(View(), CallRemove(key, uri));
      i := |ops|;
      ops := ops + [Op(Remove(key, uri), 0, false, Queued)];
    }

    method ListDownloads(host: string, profile: string) returns (i: nat)
      requires Valid()
      modifies this
      ensures i == |old(ops)| && View() == Apply(old(View()), CallList(host, profile)) && Valid()
    {
      KeepsStep(View(), CallList(host, profile));
      i := |ops|;
      var ticket := Publish(i);
      ops := ops + [Op(List(host, profile), 0, false, ReconcileWaiting(ticket))];
    }

    method ReconcileDirectories() returns (i: nat)
      requires Valid()
      modifies this
      ensures i == |old(ops)| && View() == Apply(old(View()), CallReconcile) && Valid()
    {
      KeepsStep(View(), CallReconcile);
      i := |ops|;
      var ticket := Publish(i);
      ops := ops + [Op(Reconcile, 0, false, ReconcileWaiting(ticket))];
    }

    method Abort(i: nat)
      requires Valid() && i < |ops|
      modifies this
      ensures View() == Apply(old(View()), Cancel(i)) && Valid()
    {
      KeepsStep(View(), Cancel(i));
      ops := ops[i := ops[i].(cancelled := true)];
    }

    // ---- outstanding requests ------------------------------------------------------------

    /** The request operation `i` waits for rejects. */
    method Reject(i: nat)
      requires Valid() && i < |ops| && Awaiting(ops[i].phase)
      modifies this
      ensures View() == Apply(old(View()), AwaitFails(i)) && Valid()
    {
      KeepsStep(View(), AwaitFails(i));
      var p := ops[i].phase;
      if Holding(p) { EndPublication(); }
      if p.Saving? {
        GoTo(i, Saving(p.a, Failing(p.stage.Restoring?)));
      } else {
        GoTo(i, Settled(false));
      }
    }

    /** The query for the row a save may replace. */
    method ReadRow(i: nat)
      requires Valid() && Enabled(View(), OfSave(i, RowIsRead))
      modifies this
      ensures View() == Apply(old(View()), OfSave(i, RowIsRead)) && Valid()
    {
      KeepsStep(View(), OfSave(i, RowIsRead));
      var key := ops[i].call.key;
      if key in rows { GoTo(i, RowRead(Some(rows[key]))); } else { GoTo(i, RowRead(None)); }
    }

    method FinishTransfer(i: nat)
      requires Valid() && Enabled(View(), OfSave(i, TransferDone))
      modifies this
      ensures View() == Apply(old(View()), OfSave(i, TransferDone)) && Valid()
    {
      KeepsStep(View(), OfSave(i, TransferDone));
      var a := ops[i].phase.a;
      files := files + {a.file};
      GoTo(i, Saving(a, Transferred));
    }

    method MoveFile(i: nat)
      requires Valid() && Enabled(View(), OfSave(i, MoveDone))
      modifies this
      ensures View() == Apply(old(View()), OfSave(i, MoveDone)) && Valid()
    {
      KeepsStep(View(), OfSave(i, MoveDone));
      var a, to := ops[i].phase.a, ops[i].phase.stage.to;
      files := files - {a.file} + {to};
      GoTo(i, Saving(a.(file := to), Moved));
    }

    /** The write of the new row over any row of its key. */
    method InsertRow(i: nat)
      requires Valid() && Enabled(View(), OfSave(i, InsertDone))
      modifies this
      ensures View() == Apply(old(View()), OfSave(i, InsertDone)) && Valid()
    {
      KeepsStep(View(), OfSave(i, InsertDone));
      var a, row := ops[i].phase.a, ops[i].phase.stage.row;
      rows := rows[ops[i].call.key := row];
      published := published + {a.dir};
      GoTo(i, Saving(a, Inserted(row)));
    }

    /** The write that undoes the save's own row. */
    method RestoreRow(i: nat)
      requires Valid() && Enabled(View(), OfSave(i, RestoreDone))
      modifies this
      ensures View() == Apply(old(View()), OfSave(i, RestoreDone)) && Valid()
    {
      KeepsStep(View(), OfSave(i, RestoreDone));
      UndoRow(ops[i].call.key, ops[i].phase.a);
      GoTo(i, Saving(ops[i].phase.a, Restored));
    }

    method UndoRow(key: Key, a: Attempt)
      modifies this`rows
      ensures rows == Undo(old(rows), key, a)
    {
      if key in rows && rows[key].uri == a.file {
        match a.previous
        case Some(row) => rows := rows[key := row];
        case None => rows := rows - {key};
      }
    }

    // ---- save ------------------------------------------------------------------------------

    method StartSaving(i: nat)
      requires Valid() && Enabled(View(), OfSave(i, StartSave))
      modifies this
      ensures View() == Apply(old(View()), OfSave(i, StartSave)) && Valid()
    {
      KeepsStep(View(), OfSave(i, StartSave));
      if IsCurrent(i) { GoTo(i, ReadingRow); } else { GoTo(i, Settled(false)); }
    }

    method CreateDirectory(i: nat, dir: nat)
      requires Valid() && Enabled(View(), OfSave(i, BeginAttempt(dir)))
      modifies this
      ensures View() == Apply(old(View()), OfSave(i, BeginAttempt(dir))) && Valid()
    {
      KeepsStep(View(), OfSave(i, BeginAttempt(dir)));
      BeginShape(View(), i, dir);
      if !IsCurrent(i) {
        GoTo(i, Settled(false));
      } else {
        MakeDirectory(i, dir);
        GoTo(i, Saving(Attempt(dir, Uri(dir, MEDIA), ops[i].phase.previous), Transferring));
      }
    }

    method MakeDirectory(i: nat, dir: nat)
      modifies this`dirs, this`active, this`attempts
      ensures View() == old(View()).(dirs := old(dirs) + {dir}, active := old(active) + {dir}, attempts := old(attempts)[dir := i])
    {
      dirs, active := dirs + {dir}, active + {dir};
      attempts := attempts[dir := i];
    }

    method CheckDownload(i: nat, accepted: bool, name: string)
      requires Valid() && Enabled(View(), OfSave(i, CheckTransfer(accepted, name)))
      modifies this
      ensures View() == Apply(old(View()), OfSave(i, CheckTransfer(accepted, name))) && Valid()
    {
      KeepsStep(View(), OfSave(i, CheckTransfer(accepted, name)));
      var a := ops[i].phase.a;
      if !IsCurrent(i) || !accepted {
        GoTo(i, Saving(a, Failing(false)));
      } else if name != a.file.name {
        GoTo(i, Saving(a, Moving(Uri(a.dir, name))));
      } else {
        var ticket := Publish(i);
        GoTo(i, Saving(a, Publishing(ticket)));
      }
    }

    method JoinPublications(i: nat)
      requires Valid() && Enabled(View(), OfSave(i, Enqueue))
      modifies this
      ensures View() == Apply(old(View()), OfSave(i, Enqueue)) && Valid()
    {
      KeepsStep(View(), OfSave(i, Enqueue));
      var a := ops[i].phase.a;
      if IsCurrent(i) {
        var ticket := Publish(i);
        GoTo(i, Saving(a, Publishing(ticket)));
      } else {
        GoTo(i, Saving(a, Failing(false)));
      }
    }

    method StartInsert(i: nat, size: int, now: int)
      requires Valid() && Enabled(View(), OfSave(i, StartPublication(size, now)))
      modifies this
      ensures View() == Apply(old(View()), OfSave(i, StartPublication(size, now))) && Valid()
    {
      KeepsStep(View(), OfSave(i, StartPublication(size, now)));
      var a := ops[i].phase.a;
      if IsCurrent(i) {
        holder := Some(i);
        GoTo(i, Saving(a, Inserting(Row(ops[i].call.title, a.file, size, now))));
      } else {
        EndPublication();
        GoTo(i, Saving(a, Failing(false)));
      }
    }

    method CheckInsert(i: nat, oldDeleted: bool)
      requires Valid() && Enabled(View(), OfSave(i, AfterInsert(oldDeleted)))
      modifies this
      ensures View() == Apply(old(View()), OfSave(i, AfterInsert(oldDeleted))) && Valid()
    {
      KeepsStep(View(), OfSave(i, AfterInsert(oldDeleted)));
      CheckShape(View(), i, oldDeleted);
      var a, row := ops[i].phase.a, ops[i].phase.stage.row;
      if !IsCurrent(i) {
        GoTo(i, Saving(a, Restoring(row)));
      } else {
        if oldDeleted { DeleteReplaced(a); }
        EndPublication();
        GoTo(i, Saving(a, Published(row)));
      }
    }

    /** The file of the replaced row is deleted, unless it is the new one. */
    method DeleteReplaced(a: Attempt)
      modifies this`files
      ensures files == old(files) - Replaced(a)
    {
      if a.previous.Some? && a.previous.value.uri != a.file { files := files - {a.previous.value.uri}; }
    }

    method CheckRestore(i: nat)
      requires Valid() && Enabled(View(), OfSave(i, AfterRestore))
      modifies this
      ensures View() == Apply(old(View()), OfSave(i, AfterRestore)) && Valid()
    {
      KeepsStep(View(), OfSave(i, AfterRestore));
      EndPublication();
      GoTo(i, Saving(ops[i].phase.a, Failing(false)));
    }

    method DeleteDirectory(dir: nat)
      modifies this`dirs, this`files
      ensures View() == DeleteDirs(old(View()), {dir})
    {
      dirs := dirs - {dir};
      files := files - InDir(files, {dir});
    }

    /** The catch and finally blocks. */
    method CleanUp(i: nat, deleted: bool)
      requires Valid() && Enabled(View(), OfSave(i, Cleanup(deleted)))
      modifies this
      ensures View() == Apply(old(View()), OfSave(i, Cleanup(deleted))) && Valid()
      ensures var a := old(ops[i].phase.a);
        a.dir !in active && (if old(ops[i].phase.stage.committed) then a.file in files else (deleted ==> a.dir !in dirs))
    {
      assert OpOk(View(), i);
      KeepsStep(View(), OfSave(i, Cleanup(deleted)));
      CleanedShape(View(), i, deleted);
      LeaveDirectory(ops[i].phase.a.dir, !ops[i].phase.stage.committed && deleted);
      GoTo(i, Settled(false));
    }

    /** The attempt's directory is deleted or stays, and is no longer active. */
    method LeaveDirectory(dir: nat, deletes: bool)
      modifies this`dirs, this`files, this`active
      ensures View() == DeleteDirs(old(View()), if deletes then {dir} else {}).(active := old(active) - {dir})
    {
      if deletes { DeleteDirectory(dir); }
      active := active - {dir};
      assert dirs == old(dirs) - (if deletes then {dir} else {});
      assert files == old(files) - InDir(old(files), if deletes then {dir} else {});
    }

    method FinishSaving(i: nat)
      requires Valid() && Enabled(View(), OfSave(i, FinishSave))
      modifies this
      ensures View() == Apply(old(View()), OfSave(i, FinishSave)) && Valid()
      ensures var key, row := ops[i].call.key, old(ops[i].phase.stage.row); key in rows && rows[key] == row && row.uri in files
    {
      assert OpOk(View(), i);
      KeepsStep(View(), OfSave(i, FinishSave));
      active := active - {ops[i].phase.a.dir};
      GoTo(i, Settled(true));
    }

    // ---- clear and remove ----------------------------------------------------------------------

    method StartDropping(i: nat)
      requires Valid() && Enabled(View(), OfDrop(i, StartDrop))
      modifies this
      ensures View() == Apply(old(View()), OfDrop(i, StartDrop)) && Valid()
    {
      KeepsStep(View(), OfDrop(i, StartDrop));
      match ops[i].call
      case Clear(_) => GoTo(i, ClearReading);
      case Remove(_, uri) => GoTo(i, Dropping([uri]));
    }

    method ReadRowsToClear(i: nat, order: seq<Uri>)
      requires Valid() && Enabled(View(), OfDrop(i, ClearRead(order)))
      modifies this
      ensures View() == Apply(old(View()), OfDrop(i, ClearRead(order))) && Valid()
    {
      KeepsStep(View(), OfDrop(i, ClearRead(order)));
      GoTo(i, Dropping(order));
    }

    /** A clear or a remove deletes the file before its row. */
    method DeleteFile(i: nat, ok: bool)
      requires Valid() && Enabled(View(), OfDrop(i, DropFile(ok)))
      modifies this
      ensures View() == Apply(old(View()), OfDrop(i, DropFile(ok))) && Valid()
    {
      KeepsStep(View(), OfDrop(i, DropFile(ok)));
      var u, todo := ops[i].phase.todo[0], ops[i].phase.todo[1..];
      if u in files && !ok {
        GoTo(i, Settled(false));
      } else {
        if u in files {
          files := files - {u};
          condemned := condemned[u := i];
        }
        GoTo(i, DroppingRow(u, todo));
      }
    }

    method DeleteRows(i: nat)
      requires Valid() && Enabled(View(), OfDrop(i, DropRow))
      modifies this
      ensures View() == Apply(old(View()), OfDrop(i, DropRow)) && Valid()
    {
      KeepsStep(View(), OfDrop(i, DropRow));
      rows := DropRows(rows, ops[i].call, ops[i].phase.uri);
      GoTo(i, Dropping(ops[i].phase.todo));
    }

    method EndDropping(i: nat)
      requires Valid() && Enabled(View(), OfDrop(i, DropEnd))
      modifies this
      ensures View() == Apply(old(View()), OfDrop(i, DropEnd)) && Valid()
    {
      KeepsStep(View(), OfDrop(i, DropEnd));
      if ops[i].call.Clear? {
        var ticket := Publish(i);
        GoTo(i, ReconcileWaiting(ticket));
      } else {
        GoTo(i, Settled(true));
      }
    }

    // ---- reconcile and list -------------------------------------------------------------------------

    method StartReconciling(i: nat)
      requires Valid() && Enabled(View(), OfList(i, StartReconcile))
      modifies this
      ensures View() == Apply(old(View()), OfList(i, StartReconcile)) && Valid()
    {
      KeepsStep(View(), OfList(i, StartReconcile));
      holder := Some(i);
      GoTo(i, ReconcileReading);
    }

    method ReadRetained(i: nat)
      requires Valid() && Enabled(View(), OfList(i, RetainedRead))
      modifies this
      ensures View() == Apply(old(View()), OfList(i, RetainedRead)) && Valid()
    {
      KeepsStep(View(), OfList(i, RetainedRead));
      GoTo(i, ReconcileRead(set k | k in rows :: rows[k].uri));
    }

    /** The walk over the attempt directories, in the order the file system lists them; deletion `failsAt` throws. */
    method WalkDirectories(retained: set<Uri>, found: seq<nat>, failsAt: nat) returns (ghost victims: set<nat>, ok: bool)
      requires forall d :: d in found <==> d in dirs
      modifies this`dirs, this`files
      ensures View() == DeleteDirs(old(View()), victims) && Visitable(old(View()), retained, victims, ok)
      ensures failsAt >= |found| ==> ok
    {
      victims, ok := {}, true;
      var n := 0;
      while n < |found| && ok
        invariant n <= |found| && (failsAt >= |found| ==> ok)
        invariant View() == DeleteDirs(old(View()), victims)
        invariant forall d :: d in victims ==> Unowned(old(View()), retained, d)
        invariant ok ==> forall k :: 0 <= k < n && Unowned(old(View()), retained, found[k]) ==> found[k] in victims
      {
        var d := found[n];
        var owned := d in active || exists u :: u in retained && u.dir == d;
        if !owned && n == failsAt {
          ok := false;
        } else if !owned {
          DeleteDirectory(d);
          victims := victims + {d};
        }
        n := n + 1;
      }
    }

    /** The rest of a reconcile once it has read the table.  No row loses its directory, and a cleared host has none left. */
    method VisitDirectories(i: nat, found: seq<nat>, failsAt: nat) returns (ghost victims: set<nat>, ok: bool)
      requires Valid() && i < |ops| && ops[i].phase.ReconcileRead?
      requires forall d :: d in found <==> d in dirs
      modifies this
      ensures Enabled(old(View()), OfList(i, Visit(victims, ok)))
      ensures View() == Apply(old(View()), OfList(i, Visit(victims, ok))) && Valid()
      ensures failsAt >= |found| ==> ok
      ensures forall k :: k in rows ==> rows[k].uri.dir !in victims
      ensures ok && ops[i].call.Clear? ==> NoRows(View(), ops[i].call.host)
    {
      victims, ok := WalkDirectories(ops[i].phase.retained, found, failsAt);
      VisitSpares(old(View()), i, victims, ok);
      EndReconcile(i, ok);
      KeepsStep(old(View()), OfList(i, Visit(victims, ok)));
    }

    /** The publication ends, and a list goes on to its own query. */
    method EndReconcile(i: nat, ok: bool)
      requires i < |ops|
      modifies this`ops, this`holder, this`served
      ensures View() == At(Release(old(View()), true), i, if ok then AfterReconcile(old(ops[i].call)) else Settled(false))
    {
      EndPublication();
      if !ok {
        GoTo(i, Settled(false));
      } else if ops[i].call.List? {
        GoTo(i, ListReading);
      } else {
        GoTo(i, Settled(true));
      }
    }

    method ReadListed(i: nat, found: seq<(Key, Uri)>)
      requires Valid() && Enabled(View(), OfList(i, ListRead(found)))
      modifies this
      ensures View() == Apply(old(View()), OfList(i, ListRead(found))) && Valid()
    {
      KeepsStep(View(), OfList(i, ListRead(found)));
      GoTo(i, Listing(found));
    }

    method CheckListed(i: nat)
      requires Valid() && Enabled(View(), OfList(i, ListCheck))
      modifies this
      ensures View() == Apply(old(View()), OfList(i, ListCheck)) && Valid()
    {
      KeepsStep(View(), OfList(i, ListCheck));
      var todo := ops[i].phase.rows;
      if todo == [] {
        GoTo(i, Settled(true));
      } else if todo[0].1 in files {
        GoTo(i, Listing(todo[1..]));
      } else {
        GoTo(i, ListDeleting(todo[0].0, todo[0].1, todo[1..]));
      }
    }

    method DeleteListed(i: nat)
      requires Valid() && Enabled(View(), OfList(i, ListRowDeleted))
      modifies this
      ensures View() == Apply(old(View()), OfList(i, ListRowDeleted)) && Valid()
    {
      KeepsStep(View(), OfList(i, ListRowDeleted));
      DeleteListedRow(ops[i].phase.key, ops[i].phase.uri);
      GoTo(i, Listing(ops[i].phase.rows));
    }

    method DeleteListedRow(key: Key, uri: Uri)
      modifies this`rows
      ensures rows == DeleteRow(old(rows), key, uri)
    {
      if key in rows && rows[key].uri == uri { rows := rows - {key}; }
    }
  }
}
