/** The accumulator of a library scan (scanLibrary in apps/desktop/src/main.ts). */
module LibraryScan {
  import opened Options

  type Id = s: string | s != "" witness "id"
  type Path = string
  type Folder = string

  datatype Kind = Movie | Tv | Anime
  datatype FolderKind = Movies | TvShows | AnimeShows | Auto

  datatype Item = Item(id: Id, kind: Kind, filePath: Path, episodes: seq<Path>, details: int)

  datatype CacheEntry = CacheEntry(signature: string, scannedAt: int)

  datatype Library = Library(movies: seq<Item>, tvShows: seq<Item>, animeShows: seq<Item>)

  /** Path functions of the platform, and the library and scan cache of before. */
  datatype Before = Before(resolve: Path -> Path, inside: (Folder, Path) -> bool, data: Library, cache: map<Folder, CacheEntry>)

  function AllOf(l: Library): seq<Item> { l.movies + l.tvShows + l.animeShows }

  function Get<K, V>(m: map<K, V>, k: K): Option<V> { if k in m then Some(m[k]) else None }

  /** The id saved for each path; of several items with one path the last one counts. */
  function StoredIds(items: seq<Item>, resolve: Path -> Path): map<Path, Id> {
    if items == [] then map[]
    else
      var n := |items| - 1;
      var before := StoredIds(items[..n], resolve);
      if items[n].filePath != "" then before[resolve(items[n].filePath) := items[n].id] else before
  }

  function KindFor(kind: FolderKind, item: Item): Kind {
    match kind
    case Movies => Movie
    case AnimeShows => Anime
    case TvShows => Tv
    case Auto => item.kind
  }

  /** The id an item keeps: the one its path already has, or its own. */
  function ResolvedId(b: Before, item: Item): Id {
    var stored := StoredIds(AllOf(b.data), b.resolve);
    if item.filePath != "" && b.resolve(item.filePath) in stored then stored[b.resolve(item.filePath)] else item.id
  }

  function Next(b: Before, item: Item, kind: FolderKind): Item {
    item.(kind := KindFor(kind, item), id := ResolvedId(b, item))
  }

  // ---- appending -----------------------------------------------------------------------

  datatype Found = Found(items: Library, ids: set<Id>)

  function Push(l: Library, x: Item): Library {
    l.(movies := if x.kind.Movie? then l.movies + [x] else l.movies,
       tvShows := if x.kind.Tv? then l.tvShows + [x] else l.tvShows,
       animeShows := if x.kind.Anime? then l.animeShows + [x] else l.animeShows)
  }

  function Append(f: Found, x: Item): Found {
    if x.id in f.ids then f else Found(Push(f.items, x), f.ids + {x.id})
  }

  function AppendAll(f: Found, xs: seq<Item>): Found {
    if xs == [] then f else Append(AppendAll(f, xs[..|xs| - 1]), xs[|xs| - 1])
  }

  function IdsOf(items: seq<Item>): set<Id> { set x | x in items :: x.id }

  ghost predicate Distinct(items: seq<Item>) { forall i, j :: 0 <= i < j < |items| ==> items[i].id != items[j].id }

  /** Ids are unique across the three collections, and the id set is exactly theirs. */
  ghost predicate Consistent(f: Found) { f.ids == IdsOf(AllOf(f.items)) && Distinct(AllOf(f.items)) }

  lemma InsertKeepsDistinct(before: seq<Item>, x: Item, after: seq<Item>)
    requires Distinct(before + after) && x.id !in IdsOf(before + after)
    ensures Distinct(before + [x] + after) && IdsOf(before + [x] + after) == IdsOf(before + after) + {x.id}
  {
    var old', new' := before + after, before + [x] + after;
    assert forall i :: 0 <= i < |before| ==> new'[i] == old'[i];
    assert forall i :: |before| < i < |new'| ==> new'[i] == old'[i - 1];
    assert forall y :: y in old' <==> y in before || y in after;
    assert forall y :: y in new' <==> y in old' || y == x;
    assert forall i :: 0 <= i < |old'| ==> old'[i].id in IdsOf(old');
  }

  lemma PushInserts(l: Library, x: Item) returns (before: seq<Item>, after: seq<Item>)
    ensures AllOf(l) == before + after && AllOf(Push(l, x)) == before + [x] + after
  {
    before := match x.kind case Movie => l.movies case Tv => l.movies + l.tvShows case Anime => l.movies + l.tvShows + l.animeShows;
    after := match x.kind case Movie => l.tvShows + l.animeShows case Tv => l.animeShows case Anime => [];
  }

  lemma AppendKeepsConsistent(f: Found, x: Item)
    requires Consistent(f)
    ensures Consistent(Append(f, x))
  {
    if x.id !in f.ids {
      var before, after := PushInserts(f.items, x);
      InsertKeepsDistinct(before, x, after);
    }
  }

  lemma {:induction false} AppendAllKeepsConsistent(f: Found, xs: seq<Item>)
    requires Consistent(f)
    ensures Consistent(AppendAll(f, xs))
  {
    if xs != [] {
      AppendAllKeepsConsistent(f, xs[..|xs| - 1]);
      AppendKeepsConsistent(AppendAll(f, xs[..|xs| - 1]), xs[|xs| - 1]);
    }
  }

  ghost predicate Within(a: Library, b: Library) { a.movies <= b.movies && a.tvShows <= b.tvShows && a.animeShows <= b.animeShows }

  lemma {:induction false} AppendAllExtends(f: Found, xs: seq<Item>)
    ensures Within(f.items, AppendAll(f, xs).items)
  {
    if xs != [] { AppendAllExtends(f, xs[..|xs| - 1]); }
  }

  lemma {:induction false} AppendAllIds(f: Found, xs: seq<Item>)
    ensures AppendAll(f, xs).ids == f.ids + IdsOf(xs)
  {
    if xs != [] {
      AppendAllIds(f, xs[..|xs| - 1]);
      assert xs == xs[..|xs| - 1] + [xs[|xs| - 1]];
    }
  }

  /** Item `i` is the first offered with its id, which was not there before. */
  predicate IsNew(ids: set<Id>, xs: seq<Item>, i: nat) { i < |xs| && xs[i].id !in ids && xs[i].id !in IdsOf(xs[..i]) }

  ghost predicate Accepted(ids: set<Id>, xs: seq<Item>, x: Item) { exists i: nat :: IsNew(ids, xs, i) && xs[i] == x }

  lemma AcceptedOne(ids: set<Id>, xs: seq<Item>, x: Item)
    requires xs != []
    ensures var n := |xs| - 1; Accepted(ids, xs, x) <==> Accepted(ids, xs[..n], x) || (xs[n] == x && IsNew(ids, xs, n))
  {
    var n := |xs| - 1;
    forall i: nat | i < n ensures IsNew(ids, xs[..n], i) <==> IsNew(ids, xs, i) { assert xs[..n][..i] == xs[..i]; }
    if Accepted(ids, xs[..n], x) {
      var i: nat :| IsNew(ids, xs[..n], i) && xs[..n][i] == x;
      assert IsNew(ids, xs, i);
    }
  }

  /** What is found afterwards: what was there, and every offered item that is the first with its id. */
  lemma {:induction false} AppendAllMeaning(f: Found, xs: seq<Item>, x: Item)
    ensures x in AllOf(AppendAll(f, xs).items) <==> x in AllOf(f.items) || Accepted(f.ids, xs, x)
  {
    if xs != [] {
      var n := |xs| - 1;
      AppendAllMeaning(f, xs[..n], x);
      AppendAllIds(f, xs[..n]);
      AcceptedOne(f.ids, xs, x);
      PushMembers(AppendAll(f, xs[..n]).items, xs[n]);
    }
  }

  lemma PushMembers(l: Library, x: Item)
    ensures forall y :: y in AllOf(Push(l, x)) <==> y in AllOf(l) || y == x
  {
  }

  // ---- one root --------------------------------------------------------------------------

  predicate Belongs(b: Before, item: Item, folder: Folder) {
    b.inside(folder, item.filePath) || exists e :: e in item.episodes && b.inside(folder, e)
  }

  function BelongingTo(b: Before, items: seq<Item>, folder: Folder): seq<Item> {
    if items == [] then []
    else
      var n := |items| - 1;
      BelongingTo(b, items[..n], folder) + if Belongs(b, items[n], folder) then [items[n]] else []
  }

  /** `cachedItemsForFolder` */
  function CachedItems(b: Before, folder: Folder, kind: FolderKind): seq<Item> {
    match kind
    case Movies => BelongingTo(b, b.data.movies, folder)
    case AnimeShows => BelongingTo(b, b.data.animeShows, folder)
    case TvShows => BelongingTo(b, b.data.tvShows, folder)
    case Auto => BelongingTo(b, AllOf(b.data), folder)
  }

  /** A scan that throws may have appended some items and recorded a fresh cache entry first. */
  datatype Outcome =
    | Unavailable
    | Scanned(items: seq<Item>, entry: Option<CacheEntry>)
    | Failed(partial: seq<Item>, recorded: Option<CacheEntry>)

  datatype Root = Root(folder: Folder, kind: FolderKind, outcome: Outcome)

  function NextAll(b: Before, items: seq<Item>, kind: FolderKind): (r: seq<Item>)
    ensures |r| == |items| && forall i :: 0 <= i < |r| ==> r[i] == Next(b, items[i], kind)
  {
    if items == [] then [] else NextAll(b, items[..|items| - 1], kind) + [Next(b, items[|items| - 1], kind)]
  }

  /** What a root finally contributes: its scan, or its saved items. */
  function SourceItems(b: Before, root: Root): seq<Item> {
    if root.outcome.Scanned? then root.outcome.items else CachedItems(b, root.folder, root.kind)
  }

  function Contribution(b: Before, root: Root): seq<Item> { NextAll(b, SourceItems(b, root), root.kind) }

  function Recorded(cache: map<Folder, CacheEntry>, folder: Folder, entry: Option<CacheEntry>): map<Folder, CacheEntry> {
    if entry.Some? then cache[folder := entry.value] else cache
  }

  /** A failed root falls back to its old cache entry; without one, a fresh entry stays in memory. */
  function CacheAfter(b: Before, cache: map<Folder, CacheEntry>, root: Root): map<Folder, CacheEntry> {
    match root.outcome
    case Unavailable => Recorded(cache, root.folder, Get(b.cache, root.folder))
    case Scanned(_, entry) => Recorded(cache, root.folder, entry)
    case Failed(_, recorded) => Recorded(Recorded(cache, root.folder, recorded), root.folder, Get(b.cache, root.folder))
  }

  lemma {:induction false} AppendAllConcat(f: Found, xs: seq<Item>, ys: seq<Item>)
    ensures AppendAll(f, xs + ys) == AppendAll(AppendAll(f, xs), ys)
  {
    if ys == [] {
      assert xs + ys == xs;
    } else {
      assert (xs + ys)[..|xs + ys| - 1] == xs + ys[..|ys| - 1];
      AppendAllConcat(f, xs, ys[..|ys| - 1]);
    }
  }

  lemma AppendOne(f: Found, b: Before, items: seq<Item>, kind: FolderKind, i: nat)
    requires i < |items|
    ensures AppendAll(f, NextAll(b, items[..i + 1], kind)) ==
      Append(AppendAll(f, NextAll(b, items[..i], kind)), Next(b, items[i], kind))
  {
    assert NextAll(b, items[..i + 1], kind)[..i] == NextAll(b, items[..i], kind);
  }

  /** The first `n` of several sequences, one after the other. */
  function Joined(parts: seq<seq<Item>>, n: nat): seq<Item>
    requires n <= |parts|
  {
    if n == 0 then [] else Joined(parts, n - 1) + parts[n - 1]
  }

  lemma JoinedOne(f: Found, parts: seq<seq<Item>>, i: nat)
    requires i < |parts|
    ensures AppendAll(f, Joined(parts, i + 1)) == AppendAll(AppendAll(f, Joined(parts, i)), parts[i])
  {
    AppendAllConcat(f, Joined(parts, i), parts[i]);
  }

  lemma {:induction false} JoinedHolds(parts: seq<seq<Item>>, m: nat, n: nat, x: Item)
    requires n < m <= |parts| && x in parts[n]
    ensures x in Joined(parts, m)
  {
    if n < m - 1 { JoinedHolds(parts, m - 1, n, x); }
  }

  /** The folders of the first `n` roots. */
  function FoldersOf(roots: seq<Root>, n: nat): set<Folder>
    requires n <= |roots|
  {
    if n == 0 then {} else FoldersOf(roots, n - 1) + {roots[n - 1].folder}
  }

  lemma {:induction false} FoldersAre(roots: seq<Root>, n: nat, folder: Folder)
    requires n <= |roots|
    ensures folder in FoldersOf(roots, n) <==> exists i :: 0 <= i < n && roots[i].folder == folder
  {
    if n > 0 { FoldersAre(roots, n - 1, folder); }
  }

  class ScanAccumulator {
    const before: Before
    var movies: seq<Item>
    var tvShows: seq<Item>
    var animeShows: seq<Item>
    var scannedItemIds: set<Id>
    var nextScanCache: map<Folder, CacheEntry>
    var processedFolders: set<Folder>

    constructor (before: Before)
      ensures this.before == before && View() == Nothing() && Valid()
      ensures nextScanCache == map[] && processedFolders == {}
    {
      this.before := before;
      movies, tvShows, animeShows, scannedItemIds := [], [], [], {};
      nextScanCache, processedFolders := map[], {};
    }

    function View(): Found
      reads this
    {
      Found(Library(movies, tvShows, animeShows), scannedItemIds)
    }

    ghost predicate Valid()
      reads this
    {
      Consistent(View())
    }

    method AppendItem(item: Item, kind: FolderKind)
      requires Valid()
      modifies this`movies, this`tvShows, this`animeShows, this`scannedItemIds
      ensures Valid() && View() == Append(old(View()), Next(before, item, kind))
    {
      AppendKeepsConsistent(View(), Next(before, item, kind));
      var storedIds := StoredIds(AllOf(before.data), before.resolve);
      var path := before.resolve(item.filePath);
      var next := item.(kind := KindFor(kind, item));
      if item.filePath != "" && path in storedIds { next := next.(id := storedIds[path]); }
      if next.id in scannedItemIds { return; }
      scannedItemIds := scannedItemIds + {next.id};
      match next.kind
      case Anime => animeShows := animeShows + [next];
      case Tv => tvShows := tvShows + [next];
      case Movie => movies := movies + [next];
    }

    method AppendItems(items: seq<Item>, kind: FolderKind)
      requires Valid()
      modifies this`movies, this`tvShows, this`animeShows, this`scannedItemIds
      ensures Valid() && View() == AppendAll(old(View()), NextAll(before, items, kind))
    {
      for i := 0 to |items|
        invariant Valid() && View() == AppendAll(old(View()), NextAll(before, items[..i], kind))
      {
        AppendOne(old(View()), before, items, kind, i);
        AppendItem(items[i], kind);
      }
      assert items[..|items|] == items;
    }

    /** The catch block's truncation, and the id set rebuilt from what is left. */
    method RollBack(movieCount: nat, tvCount: nat, animeCount: nat)
      requires movieCount <= |movies| && tvCount <= |tvShows| && animeCount <= |animeShows|
      modifies this`movies, this`tvShows, this`animeShows, this`scannedItemIds
      ensures movies == old(movies[..movieCount]) && tvShows == old(tvShows[..tvCount]) && animeShows == old(animeShows[..animeCount])
      ensures scannedItemIds == IdsOf(AllOf(View().items))
    {
      movies, tvShows, animeShows := movies[..movieCount], tvShows[..tvCount], animeShows[..animeCount];
      scannedItemIds := {};
      var items := movies + tvShows + animeShows;
      for i := 0 to |items|
        invariant movies == old(movies[..movieCount]) && tvShows == old(tvShows[..tvCount])
        invariant animeShows == old(animeShows[..animeCount])
        invariant scannedItemIds == IdsOf(items[..i])
      {
        assert items[..i + 1] == items[..i] + [items[i]];
        scannedItemIds := scannedItemIds + {items[i].id};
      }
      assert items[..|items|] == items;
    }

    /** What stands in for a root that could not be scanned. */
    method KeepSaved(folder: Folder, kind: FolderKind)
      requires Valid()
      modifies this`movies, this`tvShows, this`animeShows, this`scannedItemIds, this`nextScanCache
      ensures Valid() && View() == AppendAll(old(View()), NextAll(before, CachedItems(before, folder, kind), kind))
      ensures nextScanCache == Recorded(old(nextScanCache), folder, Get(before.cache, folder))
    {
      AppendItems(CachedItems(before, folder, kind), kind);
      if folder in before.cache { nextScanCache := nextScanCache[folder := before.cache[folder]]; }
    }

    /** A scan that appends and then throws, and its catch block. */
    method ScanThrows(root: Root)
      requires Valid() && root.outcome.Failed?
      modifies this`movies, this`tvShows, this`animeShows, this`scannedItemIds, this`nextScanCache
      ensures Valid() && View() == old(View())
      ensures nextScanCache == Recorded(old(nextScanCache), root.folder, root.outcome.recorded)
    {
      var movieCount, tvCount, animeCount := |movies|, |tvShows|, |animeShows|;
      AppendItems(root.outcome.partial, root.kind);
      if root.outcome.recorded.Some? { nextScanCache := nextScanCache[root.folder := root.outcome.recorded.value]; }
      AppendAllExtends(old(View()), NextAll(before, root.outcome.partial, root.kind));
      RollBack(movieCount, tvCount, animeCount);
      assert Consistent(old(View())) && View().items == old(View()).items;
    }

    /** One iteration of `scanGroup`.  Whatever way the root ends, only its final contribution is left. */
    method ScanRoot(root: Root)
      requires Valid()
      modifies this
      ensures Valid() && View() == AppendAll(old(View()), Contribution(before, root))
      ensures nextScanCache == CacheAfter(before, old(nextScanCache), root)
      ensures processedFolders == old(processedFolders) + {root.folder}
    {
      match root.outcome {
        case Unavailable =>
          KeepSaved(root.folder, root.kind);
        case Scanned(items, entry) =>
          AppendItems(items, root.kind);
          if entry.Some? { nextScanCache := nextScanCache[root.folder := entry.value]; }
        case Failed(_, _) =>
          ScanThrows(root);
          KeepSaved(root.folder, root.kind);
      }
      processedFolders := processedFolders + {root.folder};
    }

    /** The four groups in turn. */
    method ScanRoots(roots: seq<Root>)
      requires View() == Nothing() && processedFolders == {} && nextScanCache == map[]
      modifies this
      ensures View() == Result(before, roots)
      ensures nextScanCache == Caches(before, roots, |roots|)
      ensures processedFolders == FoldersOf(roots, |roots|)
    {
      for i := 0 to |roots|
        invariant Valid() && View() == FoundAfter(before, roots, i)
        invariant nextScanCache == Caches(before, roots, i)
        invariant processedFolders == FoldersOf(roots, i)
      {
        FoundAfterOne(before, roots, i);
        ScanRoot(roots[i]);
      }
    }
  }

  // ---- a whole scan -----------------------------------------------------------------------------

  function Nothing(): Found { Found(Library([], [], []), {}) }

  function Contributions(b: Before, roots: seq<Root>): (r: seq<seq<Item>>)
    ensures |r| == |roots| && forall i :: 0 <= i < |r| ==> r[i] == Contribution(b, roots[i])
  {
    seq(|roots|, i requires 0 <= i < |roots| => Contribution(b, roots[i]))
  }

  /** Everything the roots contribute, in order. */
  function Offered(b: Before, roots: seq<Root>): seq<Item> { Joined(Contributions(b, roots), |roots|) }

  /** What is found after the first `n` roots. */
  function FoundAfter(b: Before, roots: seq<Root>, n: nat): Found
    requires n <= |roots|
  {
    AppendAll(Nothing(), Joined(Contributions(b, roots), n))
  }

  lemma FoundAfterOne(b: Before, roots: seq<Root>, i: nat)
    requires i < |roots|
    ensures FoundAfter(b, roots, i + 1) == AppendAll(FoundAfter(b, roots, i), Contribution(b, roots[i]))
  {
    JoinedOne(Nothing(), Contributions(b, roots), i);
  }

  function Result(b: Before, roots: seq<Root>): Found { AppendAll(Nothing(), Offered(b, roots)) }

  /** The scan cache after the first `n` roots. */
  function Caches(b: Before, roots: seq<Root>, n: nat): map<Folder, CacheEntry>
    requires n <= |roots|
  {
    if n == 0 then map[] else CacheAfter(b, Caches(b, roots, n - 1), roots[n - 1])
  }

  lemma ResultIsConsistent(b: Before, roots: seq<Root>)
    ensures Consistent(Result(b, roots))
  {
    AppendAllKeepsConsistent(Nothing(), Offered(b, roots));
  }

  predicate Preserved(root: Root) { !root.outcome.Scanned? }

  /** The saved items a folder of this kind takes its items from. */
  function SavedFor(data: Library, kind: FolderKind): seq<Item> {
    match kind
    case Movies => data.movies
    case TvShows => data.tvShows
    case AnimeShows => data.animeShows
    case Auto => data.movies + data.tvShows + data.animeShows
  }

  /** The item or one of its episodes lies in the folder. */
  predicate LiesIn(b: Before, y: Item, folder: Folder) {
    b.inside(folder, y.filePath) || exists k :: 0 <= k < |y.episodes| && b.inside(folder, y.episodes[k])
  }

  /** A root offers what its scan found, or every saved item in its folder when the scan did not end well. */
  predicate Offers(b: Before, root: Root, y: Item) {
    if root.outcome.Scanned? then y in root.outcome.items else y in SavedFor(b.data, root.kind) && LiesIn(b, y, root.folder)
  }

  predicate Increasing(at: seq<nat>) { forall i, j :: 0 <= i < j < |at| ==> at[i] < at[j] }

  /** `at` are the positions of `items` that lie in the folder, ascending, and `picked` the items there. */
  ghost predicate Picks(b: Before, items: seq<Item>, folder: Folder, at: seq<nat>, picked: seq<Item>) {
    && Increasing(at) && |picked| == |at|
    && (forall k :: 0 <= k < |at| ==> at[k] < |items| && picked[k] == items[at[k]])
    && (forall i :: 0 <= i < |items| ==> (LiesIn(b, items[i], folder) <==> i in at))
  }

  lemma PicksOne(b: Before, items: seq<Item>, folder: Folder, at: seq<nat>, picked: seq<Item>)
    requires items != [] && Picks(b, items[..|items| - 1], folder, at, picked)
    ensures
      var n := |items| - 1;
      if LiesIn(b, items[n], folder) then Picks(b, items, folder, at + [n], picked + [items[n]]) else Picks(b, items, folder, at, picked)
  {
    var n := |items| - 1;
    assert forall i :: 0 <= i < n ==> items[..n][i] == items[i];
    if LiesIn(b, items[n], folder) {
      assert forall i :: i in at + [n] <==> i in at || i == n;
    }
  }

  lemma {:induction false} BelongingIsPicked(b: Before, items: seq<Item>, folder: Folder) returns (at: seq<nat>)
    ensures Picks(b, items, folder, at, BelongingTo(b, items, folder))
  {
    if items == [] {
      at := [];
    } else {
      var n := |items| - 1;
      at := BelongingIsPicked(b, items[..n], folder);
      PicksOne(b, items, folder, at, BelongingTo(b, items[..n], folder));
      if LiesIn(b, items[n], folder) { at := at + [n]; }
    }
  }

  /** `y` as a root of this kind appends it: the collection's kind, and the id its path already has. */
  predicate Becomes(b: Before, y: Item, kind: FolderKind, x: Item) {
    && x.id == ResolvedId(b, y) && x.filePath == y.filePath && x.episodes == y.episodes && x.details == y.details
    && (kind.Movies? ==> x.kind.Movie?) && (kind.TvShows? ==> x.kind.Tv?) && (kind.AnimeShows? ==> x.kind.Anime?)
    && (kind.Auto? ==> x.kind == y.kind)
  }

  /**
   A root that was unavailable or failed contributes exactly the saved items of its kind's collections whose path, or
   one of whose episodes, lies in its folder, in their saved order.
   */
  lemma PreservedContribution(b: Before, root: Root) returns (at: seq<nat>)
    requires !root.outcome.Scanned?
    ensures Increasing(at) && |at| == |Contribution(b, root)|
    ensures
      var saved := SavedFor(b.data, root.kind);
      && (forall k :: 0 <= k < |at| ==> at[k] < |saved| && Becomes(b, saved[at[k]], root.kind, Contribution(b, root)[k]))
      && (forall i :: 0 <= i < |saved| ==> (LiesIn(b, saved[i], root.folder) <==> i in at))
  {
    at := BelongingIsPicked(b, SavedFor(b.data, root.kind), root.folder);
  }

  lemma SourceIsOffered(b: Before, root: Root, y: Item)
    ensures y in SourceItems(b, root) <==> Offers(b, root, y)
  {
    if !root.outcome.Scanned? {
      var saved, cached := SavedFor(b.data, root.kind), CachedItems(b, root.folder, root.kind);
      var at := BelongingIsPicked(b, saved, root.folder);
      if y in saved && LiesIn(b, y, root.folder) {
        var i :| 0 <= i < |saved| && saved[i] == y;
        var k :| 0 <= k < |at| && at[k] == i;
        assert cached[k] == y;
      }
      if y in cached {
        var k :| 0 <= k < |cached| && cached[k] == y;
        assert at[k] in at;
      }
    }
  }

  ghost predicate OffersId(b: Before, roots: seq<Root>, id: Id) {
    exists n: nat, y :: n < |roots| && Offers(b, roots[n], y) && ResolvedId(b, y) == id
  }

  /** The ids of the result are exactly those that some root offers, scanned or saved. */
  lemma ResultHoldsWhatIsOffered(b: Before, roots: seq<Root>, id: Id)
    ensures id in IdsOf(AllOf(Result(b, roots).items)) <==> OffersId(b, roots, id)
  {
    ResultIds(b, roots);
    if id in IdsOf(Offered(b, roots)) {
      var n, y := FoundWasOffered(b, roots, id);
      SourceIsOffered(b, roots[n], y);
    }
    if OffersId(b, roots, id) {
      var n: nat, y :| n < |roots| && Offers(b, roots[n], y) && ResolvedId(b, y) == id;
      SourceIsOffered(b, roots[n], y);
      OfferedIsFound(b, roots, n, y);
    }
  }

  /** Every saved item in the folder of a root that was unavailable or failed is in the result, under the id of its path. */
  lemma SavedItemsSurvive(b: Before, roots: seq<Root>, n: nat, item: Item)
    requires n < |roots| && Preserved(roots[n])
    requires item in SavedFor(b.data, roots[n].kind) && LiesIn(b, item, roots[n].folder)
    ensures ResolvedId(b, item) in IdsOf(AllOf(Result(b, roots).items))
  {
    assert Offers(b, roots[n], item);
    ResultHoldsWhatIsOffered(b, roots, ResolvedId(b, item));
  }

  /** Nothing in the result is made up, and everything in it became what its root's kind says. */
  lemma ResultComesFromARoot(b: Before, roots: seq<Root>, x: Item) returns (n: nat, y: Item)
    requires x in AllOf(Result(b, roots).items)
    ensures n < |roots| && Offers(b, roots[n], y) && Becomes(b, y, roots[n].kind, x)
  {
    AppendAllMeaning(Nothing(), Offered(b, roots), x);
    n, y := OfferedBy(b, roots, x);
    SourceIsOffered(b, roots[n], y);
  }

  ghost predicate Sorted(l: Library) {
    && (forall x :: x in l.movies ==> x.kind.Movie?)
    && (forall x :: x in l.tvShows ==> x.kind.Tv?)
    && (forall x :: x in l.animeShows ==> x.kind.Anime?)
  }

  lemma {:induction false} AppendAllKeepsSorted(f: Found, xs: seq<Item>)
    requires Sorted(f.items)
    ensures Sorted(AppendAll(f, xs).items)
  {
    if xs != [] { AppendAllKeepsSorted(f, xs[..|xs| - 1]); }
  }

  /** Each collection of the result holds items of its own kind only. */
  lemma ResultIsSorted(b: Before, roots: seq<Root>)
    ensures Sorted(Result(b, roots).items)
  {
    AppendAllKeepsSorted(Nothing(), Offered(b, roots));
  }

  /** What the scan cache finally holds for a folder that only root `n` has. */
  ghost predicate CachedAs(b: Before, root: Root, cache: map<Folder, CacheEntry>) {
    var saved := if root.folder in b.cache then Some(b.cache[root.folder]) else None;
    var entry := match root.outcome
      case Unavailable => saved
      case Scanned(_, entry) => entry
      case Failed(_, recorded) => if saved.Some? then saved else recorded;
    if entry.Some? then root.folder in cache && cache[root.folder] == entry.value else root.folder !in cache
  }

  lemma {:induction false} CachesOf(b: Before, roots: seq<Root>, m: nat, folder: Folder)
    requires m <= |roots|
    ensures (forall i :: 0 <= i < m ==> roots[i].folder != folder) ==> folder !in Caches(b, roots, m)
    ensures forall n :: 0 <= n < m && roots[n].folder == folder && (forall i :: 0 <= i < m && i != n ==> roots[i].folder != folder) ==>
      CachedAs(b, roots[n], Caches(b, roots, m))
  {
    if m > 0 { CachesOf(b, roots, m - 1, folder); }
  }

  /**
   A folder that no root has gets no cache entry.  A folder of one root gets the entry its scan recorded, and its old
   entry when the root was unavailable or failed.
   */
  lemma FinalCache(b: Before, roots: seq<Root>, folder: Folder)
    ensures folder !in FoldersOf(roots, |roots|) ==> folder !in Caches(b, roots, |roots|)
    ensures forall n :: 0 <= n < |roots| && roots[n].folder == folder && (forall i :: 0 <= i < |roots| && i != n ==> roots[i].folder != folder) ==>
      CachedAs(b, roots[n], Caches(b, roots, |roots|))
  {
    FoldersAre(roots, |roots|, folder);
    CachesOf(b, roots, |roots|, folder);
  }

  /** The saved item after position `i` that decides the id of a path. */
  ghost predicate LastWithPath(b: Before, items: seq<Item>, i: nat, path: Path) {
    && i < |items| && items[i].filePath != "" && b.resolve(items[i].filePath) == path
    && forall j :: i < j < |items| && items[j].filePath != "" ==> b.resolve(items[j].filePath) != path
  }

  lemma {:induction false} StoredIdIsTheLast(b: Before, items: seq<Item>, i: nat, path: Path)
    requires LastWithPath(b, items, i, path)
    ensures path in StoredIds(items, b.resolve) && StoredIds(items, b.resolve)[path] == items[i].id
  {
    var n := |items| - 1;
    if i < n { StoredIdIsTheLast(b, items[..n], i, path); }
  }

  lemma {:induction false} StoredPathIsSaved(items: seq<Item>, resolve: Path -> Path, path: Path)
    requires path in StoredIds(items, resolve)
    ensures exists i :: 0 <= i < |items| && items[i].filePath != "" && resolve(items[i].filePath) == path
  {
    var n := |items| - 1;
    if !(items[n].filePath != "" && resolve(items[n].filePath) == path) { StoredPathIsSaved(items[..n], resolve, path); }
  }

  /** An item without a path, or with one that no saved item has, keeps its own id. */
  lemma UnsavedKeepsItsId(b: Before, item: Item)
    requires item.filePath == "" || forall y :: y in AllOf(b.data) && y.filePath != "" ==> b.resolve(y.filePath) != b.resolve(item.filePath)
    ensures ResolvedId(b, item) == item.id
  {
    if item.filePath != "" && b.resolve(item.filePath) in StoredIds(AllOf(b.data), b.resolve) {
      StoredPathIsSaved(AllOf(b.data), b.resolve, b.resolve(item.filePath));
      assert false;
    }
  }

  /** A path resolves to the id of the last saved item with that path. */
  lemma ResolvesToTheLast(b: Before, item: Item, last: nat)
    requires item.filePath != "" && LastWithPath(b, AllOf(b.data), last, b.resolve(item.filePath))
    ensures ResolvedId(b, item) == AllOf(b.data)[last].id
  {
    StoredIdIsTheLast(b, AllOf(b.data), last, b.resolve(item.filePath));
  }

  /** Some root offers an item of another path, or of none, under the id of `item`. */
  ghost predicate OfferedElsewhere(b: Before, roots: seq<Root>, item: Item) {
    exists n: nat, y :: n < |roots| && OffersAs(b, roots[n], y, item)
  }

  predicate OffersAs(b: Before, root: Root, y: Item, item: Item) {
    Offers(b, root, y) && (y.filePath == "" || b.resolve(y.filePath) != b.resolve(item.filePath)) && ResolvedId(b, y) == item.id
  }

  lemma {:induction false} JoinedMember(parts: seq<seq<Item>>, n: nat, x: Item)
    requires n <= |parts| && x in Joined(parts, n)
    ensures exists m: nat :: m < n && x in parts[m]
  {
    if x !in parts[n - 1] { JoinedMember(parts, n - 1, x); }
  }

  lemma OfferedIsFound(b: Before, roots: seq<Root>, n: nat, y: Item)
    requires n < |roots| && y in SourceItems(b, roots[n])
    ensures ResolvedId(b, y) in IdsOf(Offered(b, roots))
  {
    var k :| 0 <= k < |SourceItems(b, roots[n])| && SourceItems(b, roots[n])[k] == y;
    JoinedHolds(Contributions(b, roots), |roots|, n, Contribution(b, roots[n])[k]);
  }

  lemma OfferedBy(b: Before, roots: seq<Root>, x: Item) returns (n: nat, y: Item)
    requires x in Offered(b, roots)
    ensures n < |roots| && y in SourceItems(b, roots[n]) && x == Next(b, y, roots[n].kind)
  {
    JoinedMember(Contributions(b, roots), |roots|, x);
    n :| n < |roots| && x in Contributions(b, roots)[n];
    var k :| 0 <= k < |Contribution(b, roots[n])| && x == Contribution(b, roots[n])[k];
    y := SourceItems(b, roots[n])[k];
  }

  lemma FoundWasOffered(b: Before, roots: seq<Root>, id: Id) returns (n: nat, y: Item)
    requires id in IdsOf(Offered(b, roots))
    ensures n < |roots| && y in SourceItems(b, roots[n]) && ResolvedId(b, y) == id
  {
    var x :| x in Offered(b, roots) && x.id == id;
    n, y := OfferedBy(b, roots, x);
  }

  /** The ids of the result are those of everything offered. */
  lemma ResultIds(b: Before, roots: seq<Root>)
    ensures IdsOf(AllOf(Result(b, roots).items)) == IdsOf(Offered(b, roots))
  {
    AppendAllIds(Nothing(), Offered(b, roots));
    ResultIsConsistent(b, roots);
  }

  /**
   A saved item of a preserved root keeps its own id in the result exactly when the last saved item with its path has
   that id, or some root offers the id on another path.
   */
  lemma OwnIdSurvivesExactly(b: Before, roots: seq<Root>, n: nat, item: Item, last: nat)
    requires n < |roots| && Preserved(roots[n])
    requires item in SavedFor(b.data, roots[n].kind) && LiesIn(b, item, roots[n].folder)
    requires item.filePath != "" && LastWithPath(b, AllOf(b.data), last, b.resolve(item.filePath))
    ensures item.id in IdsOf(AllOf(Result(b, roots).items)) <==>
      AllOf(b.data)[last].id == item.id || OfferedElsewhere(b, roots, item)
  {
    ResultIds(b, roots);
    ResolvesToTheLast(b, item, last);
    if item.id in IdsOf(Offered(b, roots)) {
      var m, y := FoundWasOffered(b, roots, item.id);
      SourceIsOffered(b, roots[m], y);
      if !OffersAs(b, roots[m], y, item) { ResolvesToTheLast(b, y, last); }
    }
    if AllOf(b.data)[last].id == item.id {
      SourceIsOffered(b, roots[n], item);
      OfferedIsFound(b, roots, n, item);
    }
    if OfferedElsewhere(b, roots, item) {
      var m: nat, y :| m < |roots| && OffersAs(b, roots[m], y, item);
      SourceIsOffered(b, roots[m], y);
      OfferedIsFound(b, roots, m, y);
    }
  }

  lemma {:induction false} AllBelong(b: Before, items: seq<Item>, folder: Folder)
    requires forall x :: x in items ==> Belongs(b, x, folder)
    ensures BelongingTo(b, items, folder) == items
  {
    if items != [] {
      AllBelong(b, items[..|items| - 1], folder);
      assert items == items[..|items| - 1] + [items[|items| - 1]];
    }
  }

  function SharedPath(path: Path, a: Id, z: Id): Before {
    Before(p => p, (f, p) => true, Library([Item(a, Movie, path, [], 0), Item(z, Movie, path, [], 0)], [], []), map[])
  }

  lemma SharedPathContribution(folder: Folder, path: Path, a: Id, z: Id)
    requires path != ""
    ensures
      var b := SharedPath(path, a, z);
      && CachedItems(b, folder, Movies) == b.data.movies
      && forall x :: x in Contribution(b, Root(folder, Movies, Unavailable)) ==> x.id == z
  {
    var b := SharedPath(path, a, z);
    assert AllOf(b.data) == b.data.movies;
    StoredIdIsTheLast(b, b.data.movies, 1, path);
    AllBelong(b, b.data.movies, folder);
  }

  /** Two saved items with one path: the earlier one's id is gone although its root was only unavailable. */
  lemma SharedPathLosesAnId(folder: Folder, path: Path, a: Id, z: Id)
    requires a != z && path != ""
    ensures
      var b := SharedPath(path, a, z);
      && b.data.movies[0].id == a && LiesIn(b, b.data.movies[0], folder)
      && a !in Result(b, [Root(folder, Movies, Unavailable)]).ids
  {
    var b, roots := SharedPath(path, a, z), [Root(folder, Movies, Unavailable)];
    SharedPathContribution(folder, path, a, z);
    AppendAllIds(Nothing(), Offered(b, roots));
    assert Offered(b, roots) == Joined(Contributions(b, roots), 0) + Contribution(b, roots[0]);
  }

  // ---- partial snapshots ---------------------------------------------------------------------------

  function Unprocessed(b: Before, scanned: seq<Item>, saved: seq<Item>, processed: set<Folder>): seq<Item> {
    if saved == [] then []
    else
      var n := |saved| - 1;
      Unprocessed(b, scanned, saved[..n], processed)
      + if saved[n].id !in IdsOf(scanned) && !(exists f :: f in processed && Belongs(b, saved[n], f)) then [saved[n]] else []
  }

  /** `mergeFreshWithCached` */
  function Merged(b: Before, scanned: seq<Item>, saved: seq<Item>, processed: set<Folder>, complete: bool): seq<Item> {
    if complete then scanned else scanned + Unprocessed(b, scanned, saved, processed)
  }

  lemma {:induction false} UnprocessedMeaning(b: Before, scanned: seq<Item>, saved: seq<Item>, processed: set<Folder>)
    ensures forall x :: x in Unprocessed(b, scanned, saved, processed) <==>
      x in saved && x.id !in IdsOf(scanned) && !(exists f :: f in processed && Belongs(b, x, f))
    ensures Distinct(saved) ==> Distinct(Unprocessed(b, scanned, saved, processed))
  {
    if saved != [] {
      var n := |saved| - 1;
      UnprocessedMeaning(b, scanned, saved[..n], processed);
      assert saved == saved[..n] + [saved[n]];
      var rest := Unprocessed(b, scanned, saved[..n], processed);
      if Distinct(saved) {
        forall k | 0 <= k < |rest|
          ensures rest[k].id != saved[n].id
        {
          assert rest[k] in saved[..n];
        }
      }
    }
  }

  /**
   A saved item's id is in a partial snapshot when it was scanned again or the item lies in no processed folder;
   with unique saved ids, exactly then.
   */
  lemma SnapshotDropsOnlyProcessed(b: Before, scanned: seq<Item>, saved: seq<Item>, processed: set<Folder>, item: Item)
    requires item in saved
    ensures
      var kept := item.id in IdsOf(scanned) || !(exists f :: f in processed && Belongs(b, item, f));
      var ids := IdsOf(Merged(b, scanned, saved, processed, false));
      (kept ==> item.id in ids) && (Distinct(saved) ==> (item.id in ids <==> kept))
    ensures Merged(b, scanned, saved, processed, true) == scanned <= Merged(b, scanned, saved, processed, false)
    ensures forall x :: x in Merged(b, scanned, saved, processed, false) ==> x in scanned || x in saved
  {
    UnprocessedMeaning(b, scanned, saved, processed);
    var merged := Merged(b, scanned, saved, processed, false);
    assert forall x :: x in merged <==> x in scanned || x in Unprocessed(b, scanned, saved, processed);
  }

  /** After any roots, each collection of the snapshot has unique ids when the saved collection has. */
  lemma SnapshotIdsAreUnique(b: Before, roots: seq<Root>, processed: set<Folder>, complete: bool)
    requires Distinct(b.data.movies) && Distinct(b.data.tvShows) && Distinct(b.data.animeShows)
    ensures
      var found := Result(b, roots).items;
      && Distinct(Merged(b, found.movies, b.data.movies, processed, complete))
      && Distinct(Merged(b, found.tvShows, b.data.tvShows, processed, complete))
      && Distinct(Merged(b, found.animeShows, b.data.animeShows, processed, complete))
  {
    ResultIsConsistent(b, roots);
    var found := Result(b, roots).items;
    PartsAreDistinct(found);
    MergedIsDistinct(b, found.movies, b.data.movies, processed);
    MergedIsDistinct(b, found.tvShows, b.data.tvShows, processed);
    MergedIsDistinct(b, found.animeShows, b.data.animeShows, processed);
  }

  lemma PartsAreDistinct(l: Library)
    requires Distinct(AllOf(l))
    ensures Distinct(l.movies) && Distinct(l.tvShows) && Distinct(l.animeShows)
  {
    assert AllOf(l) == [] + l.movies + (l.tvShows + l.animeShows) == (l.movies + l.tvShows) + l.animeShows + [];
    DistinctPart([], l.movies, l.tvShows + l.animeShows);
    DistinctPart(l.movies, l.tvShows, l.animeShows);
    DistinctPart(l.movies + l.tvShows, l.animeShows, []);
  }

  lemma DistinctPart(before: seq<Item>, part: seq<Item>, after: seq<Item>)
    requires Distinct(before + part + after)
    ensures Distinct(part)
  {
    var all := before + part + after;
    forall i, j | 0 <= i < j < |part|
      ensures part[i].id != part[j].id
    {
      assert all[|before| + i] == part[i] && all[|before| + j] == part[j];
    }
  }

  lemma MergedIsDistinct(b: Before, scanned: seq<Item>, saved: seq<Item>, processed: set<Folder>)
    requires Distinct(scanned) && Distinct(saved)
    ensures Distinct(Merged(b, scanned, saved, processed, false))
  {
    UnprocessedMeaning(b, scanned, saved, processed);
    var rest := Unprocessed(b, scanned, saved, processed);
    forall i, k | 0 <= i < |scanned| && 0 <= k < |rest|
      ensures scanned[i].id != rest[k].id
    {
      assert rest[k] in rest;
    }
  }
}
