/**
 The offline snapshot cache (apps/mobile/mobileOfflineCache.ts): a save writes only what differs from an in-memory
 diff base, inside one transaction.  How far is that from rewriting the host's rows from scratch?
 */
module OfflineCache {
  import opened Options

  type Host = string
  type Path = string
  type Encoded = string                 // JSON text of one progress entry

  const MAX_AGE: int := 30 * 24 * 60 * 60 * 1000

  datatype Row = Row(payload: Encoded, lastSeen: int)
  type Rows = map<(Host, Path), Row>

  function Get<K, V>(m: map<K, V>, k: K): Option<V> { if k in m then Some(m[k]) else None }

  datatype Transport = Compact | Legacy

  /** What decides whether the metadata is written again.  Numbers in `…Ref` fields stand for object identities. */
  datatype Identity = Identity(
    profileRef: int, automatic: bool, profilesRef: int, libraryRef: int, etag: string,
    revision: Option<int>, transport: Option<Transport>, selection: Option<int>, listsRef: int)

  predicate SameCatalog(l: Identity, r: Identity) {
    && (if l.revision.Some? && r.revision.Some? then l.revision == r.revision else l.libraryRef == r.libraryRef)
    && l.etag == r.etag && l.transport == r.transport
  }

  predicate SameIdentity(l: Identity, r: Identity) {
    && l.profileRef == r.profileRef && l.automatic == r.automatic && l.profilesRef == r.profilesRef
    && SameCatalog(l, r) && l.selection == r.selection && l.listsRef == r.listsRef
  }

  datatype Stored = Stored(meta: Identity, savedAt: int)

  // ---- the active paths of a library ---------------------------------------------------

  datatype Item = Item(filePath: Path, episodes: seq<Path>)

  predicate Plays(item: Item, p: Path) { p != "" && (p == item.filePath || p in item.episodes) }

  method ActiveProgressPaths(library: seq<Item>) returns (paths: set<Path>)
    ensures forall p :: p in paths <==> exists i :: 0 <= i < |library| && Plays(library[i], p)
  {
    paths := {};
    for i := 0 to |library|
      invariant forall p :: p in paths <==> exists j :: 0 <= j < i && Plays(library[j], p)
    {
      var item := library[i];
      ghost var before := paths;
      if item.filePath != "" { paths := paths + {item.filePath}; }
      for n := 0 to |item.episodes|
        invariant forall p :: p in paths <==> p in before || (p != "" && (p == item.filePath || p in item.episodes[..n]))
      {
        if item.episodes[n] != "" { paths := paths + {item.episodes[n]}; }
      }
      assert forall p :: p in paths <==> p in before || Plays(library[i], p);
    }
  }

  // ---- one save, row by row ---------------------------------------------------------------

  /** Inserted or updated, but skipped when the diff base already has this text. */
  function Written(was: Option<Row>, base: Option<Encoded>, next: Option<Encoded>, seen: int): Option<Row> {
    if next.None? || base == next then was
    else if was.Some? then Some(Row(next.value, if seen > 0 then seen else was.value.lastSeen))
    else Some(Row(next.value, seen))
  }

  function Dropped(was: Option<Row>, base: Option<Encoded>, next: Option<Encoded>): Option<Row> {
    if base.Some? && next.None? then None else was
  }

  function Touched(was: Option<Row>, active: bool, savedAt: int): Option<Row> {
    if active && was.Some? then Some(was.value.(lastSeen := savedAt)) else was
  }

  function Purged(was: Option<Row>, savedAt: int): Option<Row> {
    if was.Some? && was.value.lastSeen < savedAt - MAX_AGE then None else was
  }

  function IncrementalRow(was: Option<Row>, base: Option<Encoded>, next: Option<Encoded>, active: bool, savedAt: int): Option<Row> {
    Purged(Touched(Dropped(Written(was, base, next, if active then savedAt else 0), base, next), active, savedAt), savedAt)
  }

  /** The reference: forget the host's rows, write the snapshot, purge what no library has shown for 30 days. */
  function PlainRow(was: Option<Row>, next: Option<Encoded>, active: bool, savedAt: int): Option<Row> {
    if next.None? then None
    else
      var seen := if active then savedAt else if was.Some? then was.value.lastSeen else 0;
      if seen < savedAt - MAX_AGE then None else Some(Row(next.value, seen))
  }

  datatype Save = Save(host: Host, identity: Identity, progress: map<Path, Encoded>, active: set<Path>, savedAt: int)

  function Incremental(rows: Rows, base: map<Path, Encoded>, s: Save): Rows {
    map k | k in rows.Keys + (set p | p in s.progress :: (s.host, p)) && SavedRow(rows, base, s, k).Some?
      :: SavedRow(rows, base, s, k).value
  }

  function SavedRow(rows: Rows, base: map<Path, Encoded>, s: Save, k: (Host, Path)): Option<Row> {
    if k.0 == s.host then IncrementalRow(Get(rows, k), Get(base, k.1), Get(s.progress, k.1), k.1 in s.active, s.savedAt)
    else Purged(Get(rows, k), s.savedAt)
  }

  function PlainRewrite(rows: Rows, s: Save): Rows {
    map k | k in rows.Keys + (set p | p in s.progress :: (s.host, p)) && PlainSavedRow(rows, s, k).Some?
      :: PlainSavedRow(rows, s, k).value
  }

  function PlainSavedRow(rows: Rows, s: Save, k: (Host, Path)): Option<Row> {
    if k.0 == s.host then PlainRow(Get(rows, k), Get(s.progress, k.1), k.1 in s.active, s.savedAt)
    else Purged(Get(rows, k), s.savedAt)
  }

  lemma GetIncremental(rows: Rows, base: map<Path, Encoded>, s: Save, k: (Host, Path))
    ensures Get(Incremental(rows, base, s), k) == SavedRow(rows, base, s, k)
  {
    if SavedRow(rows, base, s, k).Some? && k !in rows { assert k.1 in s.progress; }
  }

  lemma GetPlain(rows: Rows, s: Save, k: (Host, Path))
    ensures Get(PlainRewrite(rows, s), k) == PlainSavedRow(rows, s, k)
  {
    if PlainSavedRow(rows, s, k).Some? && k !in rows { assert k.1 in s.progress; }
  }

  lemma SameRows(a: Rows, b: Rows)
    ensures a == b <==> forall k :: Get(a, k) == Get(b, k)
  {
    if forall k :: Get(a, k) == Get(b, k) {
      forall k ensures k in a <==> k in b { assert Get(a, k) == Get(b, k); }
      forall k | k in a ensures a[k] == b[k] { assert Get(a, k) == Get(b, k); }
    }
  }

  // ---- incremental against plain ------------------------------------------------------------

  /** Every stored row of the host is in the diff base with the same text. */
  ghost predicate Covered(rows: Rows, base: map<Path, Encoded>, h: Host) {
    forall p :: (h, p) in rows ==> p in base && base[p] == rows[(h, p)].payload
  }

  /** A row seen at `seen` that this save purges. */
  predicate Expires(seen: int, active: bool, savedAt: int) { !active && seen < savedAt - 2_592_000_000 }

  /**
   When one path comes out as a rewrite would leave it.  A path the snapshot lacks: the base has it, or no row is there
   that outlives the purge.  A path it has: the base has another text, or the row that is skipped has the right text
   or is purged either way.
   */
  predicate ComesOutPlain(was: Option<Row>, base: Option<Encoded>, next: Option<Encoded>, active: bool, savedAt: int) {
    match next
    case None => base.Some? || was.None? || Expires(was.value.lastSeen, active, savedAt)
    case Some(text) =>
      base != next
      || (if was.Some? then was.value.payload == text || Expires(was.value.lastSeen, active, savedAt) else Expires(0, active, savedAt))
  }

  lemma RowIsPlain(was: Option<Row>, base: Option<Encoded>, next: Option<Encoded>, active: bool, savedAt: int)
    ensures IncrementalRow(was, base, next, active, savedAt) == PlainRow(was, next, active, savedAt) <==>
      ComesOutPlain(was, base, next, active, savedAt)
  {
  }

  /** The incremental save equals the plain rewrite exactly when every path comes out plain, for any rows and any diff base. */
  lemma IncrementalIsPlain(rows: Rows, base: map<Path, Encoded>, s: Save)
    ensures Incremental(rows, base, s) == PlainRewrite(rows, s) <==>
      forall p :: ComesOutPlain(Get(rows, (s.host, p)), Get(base, p), Get(s.progress, p), p in s.active, s.savedAt)
  {
    SameRows(Incremental(rows, base, s), PlainRewrite(rows, s));
    forall k
      ensures Get(Incremental(rows, base, s), k) == SavedRow(rows, base, s, k)
      ensures Get(PlainRewrite(rows, s), k) == PlainSavedRow(rows, s, k)
    {
      GetIncremental(rows, base, s, k);
      GetPlain(rows, s, k);
    }
    forall p
      ensures SavedRow(rows, base, s, (s.host, p)) == PlainSavedRow(rows, s, (s.host, p)) <==>
        ComesOutPlain(Get(rows, (s.host, p)), Get(base, p), Get(s.progress, p), p in s.active, s.savedAt)
    {
      RowIsPlain(Get(rows, (s.host, p)), Get(base, p), Get(s.progress, p), p in s.active, s.savedAt);
    }
  }

  /** With every row covered by the diff base, only an unchanged entry without a row can come out otherwise. */
  lemma CoveredIncrementalIsPlain(rows: Rows, base: map<Path, Encoded>, s: Save)
    requires Covered(rows, base, s.host)
    ensures Incremental(rows, base, s) == PlainRewrite(rows, s) <==>
      forall p :: p in s.progress && p in base && base[p] == s.progress[p] && (s.host, p) !in rows ==> Expires(0, p in s.active, s.savedAt)
  {
    IncrementalIsPlain(rows, base, s);
    forall p
      ensures ComesOutPlain(Get(rows, (s.host, p)), Get(base, p), Get(s.progress, p), p in s.active, s.savedAt) <==>
        (p in s.progress && p in base && base[p] == s.progress[p] && (s.host, p) !in rows ==> Expires(0, p in s.active, s.savedAt))
    {
    }
  }

  /** An old row that is purged, dropped with the base, rewritten, or already has the new text. */
  predicate ComesOutCovered(was: Option<Row>, base: Option<Encoded>, next: Option<Encoded>, active: bool, savedAt: int) {
    was.None? || Expires(was.value.lastSeen, active, savedAt)
    || (if next.None? then base.Some? else base != next || was.value.payload == next.value)
  }

  /** After a save the host's rows all come from the snapshot exactly when every old row comes out covered. */
  lemma CoveredAfter(rows: Rows, base: map<Path, Encoded>, s: Save)
    ensures Covered(Incremental(rows, base, s), s.progress, s.host) <==>
      forall p :: ComesOutCovered(Get(rows, (s.host, p)), Get(base, p), Get(s.progress, p), p in s.active, s.savedAt)
  {
    forall p
      ensures ComesOutCovered(Get(rows, (s.host, p)), Get(base, p), Get(s.progress, p), p in s.active, s.savedAt) <==>
        ((s.host, p) in Incremental(rows, base, s) ==>
           p in s.progress && s.progress[p] == Incremental(rows, base, s)[(s.host, p)].payload)
    {
      GetIncremental(rows, base, s, (s.host, p));
    }
  }

  // ---- the module's state ----------------------------------------------------------------------

  datatype State = State(
    snapshots: map<Host, Stored>,
    rows: Rows,
    identities: map<Host, Identity>,
    bases: map<Host, map<Path, Encoded>>)

  function BaseOf(bases: map<Host, map<Path, Encoded>>, h: Host): map<Path, Encoded> { if h in bases then bases[h] else map[] }

  predicate Changed(st: State, s: Save) { s.host !in st.identities || !SameIdentity(st.identities[s.host], s.identity) }

  /** Insert or update, or only a new `saved_at`; then the purge. */
  function SavedSnapshot(st: State, s: Save, h: Host): Option<Stored> {
    var stored :=
      if h != s.host then Get(st.snapshots, h)
      else if Changed(st, s) then Some(Stored(s.identity, s.savedAt))
      else if h in st.snapshots then Some(st.snapshots[h].(savedAt := s.savedAt))
      else None;
    if stored.Some? && stored.value.savedAt < s.savedAt - MAX_AGE then None else stored
  }

  function Snapshots(st: State, s: Save): map<Host, Stored> {
    map h | h in st.snapshots.Keys + {s.host} && SavedSnapshot(st, s, h).Some? :: SavedSnapshot(st, s, h).value
  }

  function Saved(st: State, s: Save): State {
    State(Snapshots(st, s), Incremental(st.rows, BaseOf(st.bases, s.host), s),
          st.identities[s.host := s.identity], st.bases[s.host := s.progress])
  }

  /** The diff base is forgotten before the transaction that may fail. */
  function Cleared(st: State, h: Host, commits: bool): State {
    State(if commits then st.snapshots - {h} else st.snapshots,
          if commits then map k | k in st.rows && k.0 != h :: st.rows[k] else st.rows,
          st.identities - {h}, st.bases - {h})
  }

  class SnapshotCache {
    var snapshots: map<Host, Stored>                  // mobile_offline_snapshots
    var rows: Rows                                    // mobile_offline_progress
    var identities: map<Host, Identity>               // snapshotIdentityByHost
    var bases: map<Host, map<Path, Encoded>>          // encodedProgressByHost

    constructor ()
      ensures View() == State(map[], map[], map[], map[])
    {
      snapshots, rows, identities, bases := map[], map[], map[], map[];
    }

    ghost function View(): State
      reads this
    {
      State(snapshots, rows, identities, bases)
    }

    /** The queued step of a save; `commits` is false when the transaction throws anywhere. */
    method SaveSnapshotNow(s: Save, commits: bool)
      modifies this
      ensures View() == if commits then Saved(old(View()), s) else old(View())
    {
      var nextSnapshots := WriteMetadata(s);
      var next := WriteRows(s);
      if commits {
        snapshots, rows := nextSnapshots, next;
        identities := identities[s.host := s.identity];
        bases := bases[s.host := s.progress];
      }
    }

    /** Every statement on the progress table, in order. */
    method WriteRows(s: Save) returns (next: Rows)
      ensures next == Incremental(rows, BaseOf(bases, s.host), s)
    {
      var base := BaseOf(bases, s.host);
      var written := WriteProgress(s, base);
      var kept := DropMissing(s, base, written);
      var touched := TouchActive(s, kept);
      next := map k | k in touched && !(touched[k].lastSeen < s.savedAt - MAX_AGE) :: touched[k];
      forall k
        ensures Get(next, k) == Get(Incremental(rows, base, s), k)
      {
        GetIncremental(rows, base, s, k);
        assert Get(next, k) == Purged(Get(touched, k), s.savedAt);
      }
      SameRows(next, Incremental(rows, base, s));
    }

    method WriteMetadata(s: Save) returns (next: map<Host, Stored>)
      ensures next == Snapshots(View(), s)
    {
      next := snapshots;
      if s.host !in identities || !SameIdentity(identities[s.host], s.identity) {
        next := next[s.host := Stored(s.identity, s.savedAt)];
      } else if s.host in next {
        next := next[s.host := next[s.host].(savedAt := s.savedAt)];
      }
      next := map h | h in next && !(next[h].savedAt < s.savedAt - MAX_AGE) :: next[h];
    }

    /** Writes the entries of the snapshot that the diff base does not have. */
    method WriteProgress(s: Save, base: map<Path, Encoded>) returns (next: Rows)
      ensures forall k :: Get(next, k) == if k.0 == s.host then
          Written(Get(rows, k), Get(base, k.1), Get(s.progress, k.1), if k.1 in s.active then s.savedAt else 0) else Get(rows, k)
    {
      next := rows;
      var todo := s.progress.Keys;
      while todo != {}
        invariant todo <= s.progress.Keys
        invariant forall k :: Get(next, k) == if k.0 == s.host && k.1 !in todo then
          Written(Get(rows, k), Get(base, k.1), Get(s.progress, k.1), if k.1 in s.active then s.savedAt else 0) else Get(rows, k)
      {
        var p :| p in todo;
        todo := todo - {p};
        var encoded, key := s.progress[p], (s.host, p);
        if !(p in base && base[p] == encoded) {
          var seen := if p in s.active then s.savedAt else 0;
          assert Get(next, key) == Get(rows, key);
          next := next[key := Row(encoded, if key in next && !(seen > 0) then next[key].lastSeen else seen)];
        }
      }
    }

    /** Deletes the paths of the diff base that the snapshot lacks. */
    method DropMissing(s: Save, base: map<Path, Encoded>, written: Rows) returns (next: Rows)
      ensures forall k :: Get(next, k) == if k.0 == s.host then
          Dropped(Get(written, k), Get(base, k.1), Get(s.progress, k.1)) else Get(written, k)
    {
      next := written;
      var todo := base.Keys;
      while todo != {}
        invariant todo <= base.Keys
        invariant forall k :: Get(next, k) == if k.0 == s.host && k.1 !in todo then
          Dropped(Get(written, k), Get(base, k.1), Get(s.progress, k.1)) else Get(written, k)
      {
        var p :| p in todo;
        todo := todo - {p};
        if p !in s.progress { next := next - {(s.host, p)}; }
      }
    }

    /** Marks the paths of the library as seen. */
    method TouchActive(s: Save, kept: Rows) returns (next: Rows)
      ensures forall k :: Get(next, k) == if k.0 == s.host then Touched(Get(kept, k), k.1 in s.active, s.savedAt) else Get(kept, k)
    {
      next := kept;
      var todo := s.active;
      while todo != {}
        invariant todo <= s.active
        invariant forall k :: Get(next, k) == if k.0 == s.host && k.1 !in todo then
          Touched(Get(kept, k), k.1 in s.active, s.savedAt) else Get(kept, k)
      {
        var p :| p in todo;
        todo := todo - {p};
        var key := (s.host, p);
        if key in next {
          assert Get(next, key) == Get(kept, key);
          next := next[key := next[key].(lastSeen := s.savedAt)];
        }
      }
    }

    /** The queued step of a clear. */
    method ClearSnapshot(h: Host, commits: bool)
      modifies this
      ensures View() == Cleared(old(View()), h, commits)
    {
      identities, bases := identities - {h}, bases - {h};
      if commits {
        snapshots := snapshots - {h};
        rows := map k | k in rows && k.0 != h :: rows[k];
      }
    }
  }
}
