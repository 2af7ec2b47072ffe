/**
 Offline downloads (apps/mobile/mobileDownloads.ts) as a step system.

 Every async function is cut at each `await`.  Code between two awaits is one
 step, and so is the moment at which an outstanding database, file-system or
 network request takes effect, so any other operation may run between a read
 and the code that uses its result.
 */
module DownloadModel {
  import opened Options

  datatype Key = Key(host: string, profile: string, media: string)

  /** A file inside one attempt directory.  Directory names are never reused. */
  datatype Uri = Uri(dir: nat, name: string)

  datatype Row = Row(title: string, uri: Uri, size: int, createdAt: int)

  datatype Call =
    | Save(key: Key, title: string)
    | Clear(host: string)
    | Remove(key: Key, uri: Uri)
    | List(host: string, profile: string)
    | Reconcile

  /** What one running save owns: its directory, its file, and the row it found. */
  datatype Attempt = Attempt(dir: nat, file: Uri, previous: Option<Row>)

  /** How far a save with an attempt directory has come. */
  datatype Stage =
    | Transferring
    | Transferred
    | Moving(to: Uri)
    | Moved
    | Publishing(ticket: nat)                       // waiting for the publication queue
    | Inserting(row: Row)
    | Inserted(row: Row)
    | Restoring(row: Row)
    | Restored
    | Published(row: Row)
    | Failing(committed: bool)                      // the catch block has not run yet

  datatype Phase =
    | Queued                                        // behind earlier operations of the same host
    | ReadingRow                                    // save
    | RowRead(previous: Option<Row>)
    | Saving(a: Attempt, stage: Stage)
    | ClearReading                                  // clear and remove
    | Dropping(todo: seq<Uri>)
    | DroppingRow(uri: Uri, todo: seq<Uri>)
    | ReconcileWaiting(ticket: nat)                 // reconcile, alone or inside a list or a clear
    | ReconcileReading
    | ReconcileRead(retained: set<Uri>)
    | ListReading                                   // list
    | Listing(rows: seq<(Key, Uri)>)
    | ListDeleting(key: Key, uri: Uri, rows: seq<(Key, Uri)>)
    | Settled(ok: bool)

  /** `cancelled` is the abort signal or the caller's own `isCurrent` turning false. */
  datatype Op = Op(call: Call, generation: nat, cancelled: bool, phase: Phase)

  /**
   Durable tables and files, the module's variables, and the calls made so far in
   call order.  `attempts`, `published`, `condemned` and `tickets` are history: who created a
   directory, which directories ever had a row, which operation deleted a file on
   purpose, and which operation drew a publication ticket.
   */
  datatype State = State(
    rows: map<Key, Row>,
    files: set<Uri>,
    dirs: set<nat>,
    active: set<nat>,
    generations: map<string, nat>,
    ops: seq<Op>,
    issued: nat,
    served: nat,
    holder: Option<nat>,
    attempts: map<nat, nat>,
    published: set<nat>,
    condemned: map<Uri, nat>,
    tickets: map<nat, nat>)

  const MEDIA := "media"

  function Fresh(): State {
    State(map[], {}, {}, {}, map[], [], 0, 0, None, map[], {}, map[], map[])
  }

  /** Save, clear and remove go through the host's own queue. */
  predicate Hosted(c: Call) { c.Save? || c.Clear? || c.Remove? }

  function HostOf(c: Call): string
    requires Hosted(c)
  {
    match c
    case Save(k, _) => k.host
    case Clear(h) => h
    case Remove(k, _) => k.host
  }

  predicate SameHost(c: Call, d: Call) { Hosted(c) && Hosted(d) && HostOf(c) == HostOf(d) }

  function Generation(s: State, host: string): nat {
    if host in s.generations then s.generations[host] else 0
  }

  /** `isCurrent` of a save: not aborted, and no clear of its host since the call. */
  predicate Current(s: State, i: nat)
    requires i < |s.ops| && s.ops[i].call.Save?
  {
    !s.ops[i].cancelled && s.ops[i].generation == Generation(s, s.ops[i].call.key.host)
  }

  function At(s: State, i: nat, p: Phase): State
    requires i < |s.ops|
  {
    s.(ops := s.ops[i := s.ops[i].(phase := p)])
  }

  function Called(s: State, c: Call, generation: nat, p: Phase): State {
    s.(ops := s.ops + [Op(c, generation, false, p)])
  }

  /** If `settles`, the running publication ends and the next ticket is served. */
  function Release(s: State, settles: bool): State {
    s.(holder := if settles then None else s.holder, served := if settles then s.served + 1 else s.served)
  }

  /** If `joins`, operation `i` enters the publication queue. */
  function Draw(s: State, joins: bool, i: nat): State {
    s.(issued := if joins then s.issued + 1 else s.issued, tickets := if joins then s.tickets[s.issued := i] else s.tickets)
  }

  function InDir(files: set<Uri>, dirs: set<nat>): set<Uri> { set u | u in files && u.dir in dirs }

  /** Every unsettled save of the host is aborted. */
  function AbortHost(ops: seq<Op>, host: string): (r: seq<Op>)
    ensures |r| == |ops|
    ensures forall i :: 0 <= i < |ops| ==>
      r[i] == if ops[i].call.Save? && ops[i].call.key.host == host && !ops[i].phase.Settled?
              then ops[i].(cancelled := true) else ops[i]
  {
    if ops == [] then []
    else
      var last := ops[|ops| - 1];
      AbortHost(ops[..|ops| - 1], host)
      + [if last.call.Save? && last.call.key.host == host && !last.phase.Settled?
         then last.(cancelled := true) else last]
  }

  /** An operation cut off by the end of the process. */
  function Killed(ops: seq<Op>): (r: seq<Op>)
    ensures |r| == |ops|
    ensures forall i :: 0 <= i < |ops| ==>
      r[i] == if ops[i].phase.Settled? then ops[i] else ops[i].(phase := Settled(false))
  {
    if ops == [] then []
    else
      var last := ops[|ops| - 1];
      Killed(ops[..|ops| - 1]) + [if last.phase.Settled? then last else last.(phase := Settled(false))]
  }

  /** The rows one deletion of a clear or a remove takes away: only rows that name the file. */
  predicate Matches(c: Call, k: Key, u: Uri, uri: Uri) {
    uri == u && ((c.Clear? && k.host == c.host) || (c.Remove? && k == c.key))
  }

  function DropRows(rows: map<Key, Row>, c: Call, u: Uri): map<Key, Row> {
    map k | k in rows && !Matches(c, k, u, rows[k].uri) :: rows[k]
  }

  function DeleteRow(rows: map<Key, Row>, key: Key, u: Uri): map<Key, Row> {
    if key in rows && rows[key].uri == u then rows - {key} else rows
  }

  datatype SaveEvent =
    | StartSave
    | RowIsRead
    | BeginAttempt(dir: nat)
    | TransferDone
    | CheckTransfer(accepted: bool, name: string)
    | MoveDone
    | Enqueue
    | StartPublication(size: int, now: int)
    | InsertDone
    | AfterInsert(oldDeleted: bool)
    | RestoreDone
    | AfterRestore
    | Cleanup(deleted: bool)
    | FinishSave

  datatype DropEvent =
    | StartDrop
    | ClearRead(order: seq<Uri>)
    | DropFile(ok: bool)
    | DropRow
    | DropEnd

  datatype ListEvent =
    | StartReconcile
    | RetainedRead
    | Visit(victims: set<nat>, ok: bool)            // `ok` is false when a deletion threw part way
    | ListRead(found: seq<(Key, Uri)>)
    | ListCheck
    | ListRowDeleted

  datatype Event =
    | CallSave(key: Key, title: string)
    | CallClear(host: string)
    | CallRemove(key: Key, uri: Uri)
    | CallList(host: string, profile: string)
    | CallReconcile
    | Cancel(i: nat)
    | Restart                                       // the process ends at any point and starts again
    | AwaitFails(i: nat)                            // the outstanding request rejects, or the code after it throws
    | OfSave(i: nat, save: SaveEvent)
    | OfDrop(i: nat, drop: DropEvent)
    | OfList(i: nat, list: ListEvent)

  /** Directories a reconcile may delete: not active, and no row it read lies inside. */
  predicate Unowned(s: State, retained: set<Uri>, d: nat) {
    d in s.dirs && d !in s.active && forall u :: u in retained ==> u.dir != d
  }

  predicate Listed(c: Call, k: Key)
    requires c.List?
  {
    k.host == c.host && k.profile == c.profile
  }

  /** The queue of the host reaches operation `i` once all its earlier operations have settled. */
  predicate Idle(s: State, i: nat)
    requires i < |s.ops|
  {
    s.ops[i].phase.Queued?
    && forall j :: 0 <= j < i && SameHost(s.ops[j].call, s.ops[i].call) ==> s.ops[j].phase.Settled?
  }

  predicate Awaiting(p: Phase) {
    p.ReadingRow? || p.RowRead? || p.ClearReading? || p.Dropping? || p.DroppingRow?
    || (p.Saving? && (p.stage.Transferring? || p.stage.Moving? || p.stage.Inserting? || p.stage.Restoring?))
    || p.ReconcileReading? || p.ReconcileRead? || p.ListReading? || p.ListDeleting?
  }

  /** Where a rejected request leaves an operation: a save's catch block, or the end. */
  function FailPhase(p: Phase): Phase {
    if p.Saving? then Saving(p.a, Failing(p.stage.Restoring?)) else Settled(false)
  }

  /** The phases inside a publication. */
  predicate Holding(p: Phase) {
    (p.Saving? && (p.stage.Inserting? || p.stage.Inserted? || p.stage.Restoring? || p.stage.Restored?))
    || p.ReconcileReading? || p.ReconcileRead?
  }

  function Fail(s: State, i: nat): State
    requires i < |s.ops|
  {
    At(Release(s, Holding(s.ops[i].phase)), i, FailPhase(s.ops[i].phase))
  }

  predicate InStage(s: State, i: nat) {
    i < |s.ops| && s.ops[i].phase.Saving? && s.ops[i].call.Save?
  }

  // ---- calls ---------------------------------------------------------------------

  function CalledClear(s: State, host: string): State {
    Called(s.(generations := s.generations[host := Generation(s, host) + 1], ops := AbortHost(s.ops, host)),
           Clear(host), 0, Queued)
  }

  /** `listMobileDownloads` and the plain reconcile enter the publication queue at the call. */
  function CalledReconcile(s: State, c: Call): State {
    Draw(Called(s, c, 0, ReconcileWaiting(s.issued)), true, |s.ops|)
  }

  function Cancelled(s: State, i: nat): State
    requires i < |s.ops|
  {
    s.(ops := s.ops[i := s.ops[i].(cancelled := true)])
  }

  /** Tables and files survive; operations, generations and active directories do not. */
  function Restarted(s: State): State {
    s.(active := {}, generations := map[], ops := Killed(s.ops), served := s.issued, holder := None)
  }

  // ---- save ----------------------------------------------------------------------

  function SaveStarted(s: State, i: nat): State
    requires i < |s.ops| && s.ops[i].call.Save?
  {
    At(s, i, if Current(s, i) then ReadingRow else Settled(false))
  }

  function RowFound(s: State, i: nat): State
    requires i < |s.ops| && s.ops[i].call.Save?
  {
    var key := s.ops[i].call.key;
    At(s, i, RowRead(if key in s.rows then Some(s.rows[key]) else None))
  }

  function Begun(s: State, i: nat, dir: nat): State
    requires i < |s.ops| && s.ops[i].call.Save? && s.ops[i].phase.RowRead?
  {
    var created := if Current(s, i) then {dir} else {};
    At(s.(dirs := s.dirs + created, active := s.active + created, attempts := s.attempts + map d | d in created :: i),
       i, if Current(s, i) then Saving(Attempt(dir, Uri(dir, MEDIA), s.ops[i].phase.previous), Transferring) else Settled(false))
  }

  function TransferArrived(s: State, i: nat): State
    requires InStage(s, i)
  {
    At(s.(files := s.files + {s.ops[i].phase.a.file}), i, Saving(s.ops[i].phase.a, Transferred))
  }

  /** A save that is still current joins the publication queue. */
  function ToPublish(s: State, i: nat): State
    requires InStage(s, i)
  {
    At(Draw(s, Current(s, i), i), i,
       Saving(s.ops[i].phase.a, if Current(s, i) then Publishing(s.issued) else Failing(false)))
  }

  function TransferChecked(s: State, i: nat, accepted: bool, name: string): State
    requires InStage(s, i)
  {
    var a := s.ops[i].phase.a;
    var fine := Current(s, i) && accepted;
    At(Draw(s, fine && name == a.file.name, i), i,
       Saving(a, if !fine then Failing(false)
                 else if name == a.file.name then Publishing(s.issued)
                 else Moving(Uri(a.dir, name))))
  }

  function FileMoved(s: State, i: nat): State
    requires InStage(s, i) && s.ops[i].phase.stage.Moving?
  {
    var a, to := s.ops[i].phase.a, s.ops[i].phase.stage.to;
    At(s.(files := s.files - {a.file} + {to}), i, Saving(a.(file := to), Moved))
  }

  function PublicationStarted(s: State, i: nat, size: int, now: int): State
    requires InStage(s, i)
  {
    var a := s.ops[i].phase.a;
    At(s.(holder := if Current(s, i) then Some(i) else None, served := if Current(s, i) then s.served else s.served + 1),
       i, Saving(a, if Current(s, i) then Inserting(Row(s.ops[i].call.title, a.file, size, now)) else Failing(false)))
  }

  function RowInserted(s: State, i: nat): State
    requires InStage(s, i) && s.ops[i].phase.stage.Inserting?
  {
    var a, row := s.ops[i].phase.a, s.ops[i].phase.stage.row;
    At(s.(rows := s.rows[s.ops[i].call.key := row], published := s.published + {a.dir}), i, Saving(a, Inserted(row)))
  }

  /** The copy this save replaces. */
  function Replaced(a: Attempt): set<Uri> {
    if a.previous.Some? && a.previous.value.uri != a.file then {a.previous.value.uri} else {}
  }

  function InsertChecked(s: State, i: nat, oldDeleted: bool): State
    requires InStage(s, i) && s.ops[i].phase.stage.Inserted?
  {
    var a, row := s.ops[i].phase.a, s.ops[i].phase.stage.row;
    At(Release(s, Current(s, i)).(files := if Current(s, i) && oldDeleted then s.files - Replaced(a) else s.files),
       i, Saving(a, if Current(s, i) then Published(row) else Restoring(row)))
  }

  /** Back to the preceding row, or no row; only while the row still names the attempt's file. */
  function Undo(rows: map<Key, Row>, key: Key, a: Attempt): map<Key, Row> {
    if key !in rows || rows[key].uri != a.file then rows
    else if a.previous.Some? then rows[key := a.previous.value]
    else rows - {key}
  }

  function RowRestored(s: State, i: nat): State
    requires InStage(s, i)
  {
    var a := s.ops[i].phase.a;
    At(s.(rows := Undo(s.rows, s.ops[i].call.key, a)), i, Saving(a, Restored))
  }

  function RestoreSettled(s: State, i: nat): State
    requires InStage(s, i)
  {
    At(Release(s, true), i, Saving(s.ops[i].phase.a, Failing(false)))
  }

  function DeleteDirs(s: State, gone: set<nat>): State {
    s.(dirs := s.dirs - gone, files := s.files - InDir(s.files, gone))
  }

  function CleanedUp(s: State, i: nat, deleted: bool): State
    requires InStage(s, i) && s.ops[i].phase.stage.Failing?
  {
    var dir := s.ops[i].phase.a.dir;
    At(DeleteDirs(s, if !s.ops[i].phase.stage.committed && deleted then {dir} else {}).(active := s.active - {dir}),
       i, Settled(false))
  }

  function SaveFinished(s: State, i: nat): State
    requires InStage(s, i)
  {
    At(s.(active := s.active - {s.ops[i].phase.a.dir}), i, Settled(true))
  }

  // ---- clear and remove ------------------------------------------------------------

  function DropStarted(s: State, i: nat): State
    requires i < |s.ops| && (s.ops[i].call.Clear? || s.ops[i].call.Remove?)
  {
    At(s, i, if s.ops[i].call.Clear? then ClearReading else Dropping([s.ops[i].call.uri]))
  }

  function FileDropped(s: State, i: nat, ok: bool): State
    requires i < |s.ops| && s.ops[i].phase.Dropping? && s.ops[i].phase.todo != []
  {
    var u, todo := s.ops[i].phase.todo[0], s.ops[i].phase.todo[1..];
    var deleted := u in s.files && ok;
    At(s.(files := if deleted then s.files - {u} else s.files, condemned := if deleted then s.condemned[u := i] else s.condemned),
       i, if u in s.files && !ok then Settled(false) else DroppingRow(u, todo))
  }

  function RowDropped(s: State, i: nat): State
    requires i < |s.ops| && s.ops[i].phase.DroppingRow?
  {
    At(s.(rows := DropRows(s.rows, s.ops[i].call, s.ops[i].phase.uri)), i, Dropping(s.ops[i].phase.todo))
  }

  function DropEnded(s: State, i: nat): State
    requires i < |s.ops|
  {
    At(Draw(s, s.ops[i].call.Clear?, i), i, if s.ops[i].call.Clear? then ReconcileWaiting(s.issued) else Settled(true))
  }

  // ---- reconcile and list -----------------------------------------------------------

  function ReconcileStarted(s: State, i: nat): State
    requires i < |s.ops|
  {
    At(s.(holder := Some(i)), i, ReconcileReading)
  }

  function RetainedFound(s: State, i: nat): State
    requires i < |s.ops|
  {
    At(s, i, ReconcileRead(set k | k in s.rows :: s.rows[k].uri))
  }

  /** Where a list, a clear or a plain reconcile goes after its reconcile. */
  function AfterReconcile(c: Call): Phase { if c.List? then ListReading else Settled(true) }

  function Visited(s: State, i: nat, victims: set<nat>, ok: bool): State
    requires i < |s.ops|
  {
    At(Release(DeleteDirs(s, victims), true), i, if ok then AfterReconcile(s.ops[i].call) else Settled(false))
  }

  function ListChecked(s: State, i: nat): State
    requires i < |s.ops| && s.ops[i].phase.Listing?
  {
    var todo := s.ops[i].phase.rows;
    At(s, i, if todo == [] then Settled(true)
             else if todo[0].1 in s.files then Listing(todo[1..])
             else ListDeleting(todo[0].0, todo[0].1, todo[1..]))
  }

  function ListedRowDeleted(s: State, i: nat): State
    requires i < |s.ops| && s.ops[i].phase.ListDeleting?
  {
    At(s.(rows := DeleteRow(s.rows, s.ops[i].phase.key, s.ops[i].phase.uri)), i, Listing(s.ops[i].phase.rows))
  }

  // ---- the step relation -------------------------------------------------------------

  predicate AtTurn(s: State, ticket: nat) { ticket == s.served && s.holder.None? }

  predicate SaveEnabled(s: State, i: nat, e: SaveEvent)
    requires i < |s.ops| && s.ops[i].call.Save?
  {
    var p := s.ops[i].phase;
    match e
    case StartSave => Idle(s, i)
    case RowIsRead => p.ReadingRow?
    case BeginAttempt(dir) => p.RowRead? && dir !in s.attempts
    case TransferDone => p.Saving? && p.stage.Transferring?
    case CheckTransfer(_, _) => p.Saving? && p.stage.Transferred?
    case MoveDone => p.Saving? && p.stage.Moving?
    case Enqueue => p.Saving? && p.stage.Moved?
    case StartPublication(_, _) => p.Saving? && p.stage.Publishing? && AtTurn(s, p.stage.ticket)
    case InsertDone => p.Saving? && p.stage.Inserting?
    case AfterInsert(_) => p.Saving? && p.stage.Inserted?
    case RestoreDone => p.Saving? && p.stage.Restoring?
    case AfterRestore => p.Saving? && p.stage.Restored?
    case Cleanup(_) => p.Saving? && p.stage.Failing?
    case FinishSave => p.Saving? && p.stage.Published?
  }

  function SaveStep(s: State, i: nat, e: SaveEvent): State
    requires i < |s.ops| && s.ops[i].call.Save? && SaveEnabled(s, i, e)
  {
    match e
    case StartSave => SaveStarted(s, i)
    case RowIsRead => RowFound(s, i)
    case BeginAttempt(dir) => Begun(s, i, dir)
    case TransferDone => TransferArrived(s, i)
    case CheckTransfer(accepted, name) => TransferChecked(s, i, accepted, name)
    case MoveDone => FileMoved(s, i)
    case Enqueue => ToPublish(s, i)
    case StartPublication(size, now) => PublicationStarted(s, i, size, now)
    case InsertDone => RowInserted(s, i)
    case AfterInsert(oldDeleted) => InsertChecked(s, i, oldDeleted)
    case RestoreDone => RowRestored(s, i)
    case AfterRestore => RestoreSettled(s, i)
    case Cleanup(deleted) => CleanedUp(s, i, deleted)
    case FinishSave => SaveFinished(s, i)
  }

  /** The rows a clear reads, in any order. */
  ghost predicate RowsOfHost(s: State, host: string, order: seq<Uri>) {
    && (forall u :: u in order ==> exists k :: k in s.rows && k.host == host && s.rows[k].uri == u)
    && (forall k :: k in s.rows && k.host == host ==> s.rows[k].uri in order)
  }

  ghost predicate DropEnabled(s: State, i: nat, e: DropEvent)
    requires i < |s.ops| && (s.ops[i].call.Clear? || s.ops[i].call.Remove?)
  {
    var p := s.ops[i].phase;
    match e
    case StartDrop => Idle(s, i)
    case ClearRead(order) => p.ClearReading? && s.ops[i].call.Clear? && RowsOfHost(s, s.ops[i].call.host, order)
    case DropFile(_) => p.Dropping? && p.todo != []
    case DropRow => p.DroppingRow?
    case DropEnd => p.Dropping? && p.todo == []
  }

  ghost function DropStep(s: State, i: nat, e: DropEvent): State
    requires i < |s.ops| && (s.ops[i].call.Clear? || s.ops[i].call.Remove?) && DropEnabled(s, i, e)
  {
    match e
    case StartDrop => DropStarted(s, i)
    case ClearRead(order) => At(s, i, Dropping(order))
    case DropFile(ok) => FileDropped(s, i, ok)
    case DropRow => RowDropped(s, i)
    case DropEnd => DropEnded(s, i)
  }

  /** Everything a reconcile visits is either kept for a reason or deleted; a failed one deletes only part. */
  ghost predicate Visitable(s: State, retained: set<Uri>, victims: set<nat>, ok: bool) {
    && (forall d :: d in victims ==> Unowned(s, retained, d))
    && (ok ==> forall d :: Unowned(s, retained, d) ==> d in victims)
  }

  ghost predicate RowsListed(s: State, c: Call, found: seq<(Key, Uri)>)
    requires c.List?
  {
    && (forall r :: r in found ==> r.0 in s.rows && s.rows[r.0].uri == r.1 && Listed(c, r.0))
    && (forall k :: k in s.rows && Listed(c, k) ==> (k, s.rows[k].uri) in found)
  }

  ghost predicate ListEnabled(s: State, i: nat, e: ListEvent)
    requires i < |s.ops|
  {
    var p := s.ops[i].phase;
    match e
    case StartReconcile => p.ReconcileWaiting? && AtTurn(s, p.ticket)
    case RetainedRead => p.ReconcileReading?
    case Visit(victims, ok) => p.ReconcileRead? && Visitable(s, p.retained, victims, ok)
    case ListRead(found) => p.ListReading? && s.ops[i].call.List? && RowsListed(s, s.ops[i].call, found)
    case ListCheck => p.Listing?
    case ListRowDeleted => p.ListDeleting?
  }

  ghost function ListStep(s: State, i: nat, e: ListEvent): State
    requires i < |s.ops| && ListEnabled(s, i, e)
  {
    match e
    case StartReconcile => ReconcileStarted(s, i)
    case RetainedRead => RetainedFound(s, i)
    case Visit(victims, ok) => Visited(s, i, victims, ok)
    case ListRead(found) => At(s, i, Listing(found))
    case ListCheck => ListChecked(s, i)
    case ListRowDeleted => ListedRowDeleted(s, i)
  }

  /** A download handed to the interface was once a row of this key. */
  predicate WasRow(s: State, key: Key, u: Uri) {
    && u.dir in s.published && u.dir in s.attempts && s.attempts[u.dir] < |s.ops|
    && s.ops[s.attempts[u.dir]].call.Save? && s.ops[s.attempts[u.dir]].call.key == key
  }

  ghost predicate Enabled(s: State, e: Event) {
    match e
    case CallSave(_, _) => true
    case CallClear(_) => true
    case CallRemove(key, u) => WasRow(s, key, u)
    case CallList(_, _) => true
    case CallReconcile => true
    case Cancel(i) => i < |s.ops|
    case Restart => true
    case AwaitFails(i) => i < |s.ops| && Awaiting(s.ops[i].phase)
    case OfSave(i, save) => i < |s.ops| && s.ops[i].call.Save? && SaveEnabled(s, i, save)
    case OfDrop(i, drop) => i < |s.ops| && (s.ops[i].call.Clear? || s.ops[i].call.Remove?) && DropEnabled(s, i, drop)
    case OfList(i, list) => i < |s.ops| && ListEnabled(s, i, list)
  }

  ghost function Apply(s: State, e: Event): State
    requires Enabled(s, e)
  {
    match e
    case CallSave(key, title) => Called(s, Save(key, title), Generation(s, key.host), Queued)
    case CallClear(host) => CalledClear(s, host)
    case CallRemove(key, u) => Called(s, Remove(key, u), 0, Queued)
    case CallList(host, profile) => CalledReconcile(s, List(host, profile))
    case CallReconcile => CalledReconcile(s, Reconcile)
    case Cancel(i) => Cancelled(s, i)
    case Restart => Restarted(s)
    case AwaitFails(i) => Fail(s, i)
    case OfSave(i, save) => SaveStep(s, i, save)
    case OfDrop(i, drop) => DropStep(s, i, drop)
    case OfList(i, list) => ListStep(s, i, list)
  }
}
