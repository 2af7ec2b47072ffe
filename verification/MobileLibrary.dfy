/** Season order, episode order and what is played next (apps/mobile/mobileLibrary.ts). */
module MobileLibrary {
  import opened Options

  datatype Kind = Movie | Tv | Anime

  datatype Details = Details(container: string, audioCodec: string, duration: real)

  datatype Title = Named(text: string) | Numbered(number: Option<int>)

  datatype EpisodeFile = EpisodeFile(
    season: int, episode: int, filePath: string, mediaId: string, title: Title, still: string, details: Option<Details>)

  /** Provider metadata of an episode; `aired` is its air date as a time, when the text is a real date. */
  datatype EpisodeInfo = EpisodeInfo(season: int, aired: Option<int>)

  datatype Media = Media(
    id: string, kind: Kind, title: string, filePath: string, year: Option<int>,
    poster: string, backdrop: string, logo: string, summary: string, rating: real, genres: seq<string>,
    lastPlayed: Option<int>, files: seq<EpisodeFile>, infos: seq<EpisodeInfo>, details: Option<Details>,
    revision: Option<int>)

  // ---- season order --------------------------------------------------------------------

  predicate Ascending(s: seq<int>) { forall i, j :: 0 <= i < j < |s| ==> s[i] < s[j] }

  /** `x` in its place in an ascending sequence, once. */
  function Placed(s: seq<int>, x: int): (r: seq<int>)
    requires Ascending(s)
    ensures Ascending(r) && forall y :: y in r <==> y in s || y == x
  {
    if s == [] then [x]
    else
      var n := |s| - 1;
      if s[n] == x then s
      else if s[n] < x then s + [x]
      else
        assert s == s[..n] + [s[n]];
        var before := Placed(s[..n], x);
        assert forall i :: 0 <= i < |before| ==> before[i] in before && before[i] < s[n];
        before + [s[n]]
  }

  /** The positive seasons that have files, ascending. */
  function RegularSeasons(files: seq<EpisodeFile>): (r: seq<int>)
    ensures Ascending(r)
    ensures forall x :: x in r <==> x > 0 && exists f :: f in files && f.season == x
  {
    if files == [] then []
    else
      var n := |files| - 1;
      assert files == files[..n] + [files[n]];
      var before := RegularSeasons(files[..n]);
      if files[n].season > 0 then Placed(before, files[n].season) else before
  }

  predicate HasSpecials(files: seq<EpisodeFile>) { exists f :: f in files && f.season == 0 }

  /** The earliest known air date of a season. */
  function FirstAirDate(infos: seq<EpisodeInfo>, season: int): Option<int> {
    if infos == [] then None
    else
      var n := |infos| - 1;
      var before := FirstAirDate(infos[..n], season);
      if infos[n].season != season || infos[n].aired.None? then before
      else if before.Some? && before.value < infos[n].aired.value then before
      else infos[n].aired
  }

  predicate Aired(infos: seq<EpisodeInfo>, season: int, date: int) {
    exists e :: e in infos && e.season == season && e.aired == Some(date)
  }

  lemma {:induction false} FirstAirDateIsEarliest(infos: seq<EpisodeInfo>, season: int)
    ensures match FirstAirDate(infos, season)
      case None => forall date :: !Aired(infos, season, date)
      case Some(first) => Aired(infos, season, first) && forall date :: Aired(infos, season, date) ==> first <= date
  {
    if infos != [] {
      var n := |infos| - 1;
      assert infos == infos[..n] + [infos[n]];
      FirstAirDateIsEarliest(infos[..n], season);
      assert forall date :: Aired(infos, season, date) <==>
        Aired(infos[..n], season, date) || (infos[n].season == season && infos[n].aired == Some(date));
    }
  }

  predicate AirsAfter(infos: seq<EpisodeInfo>, season: int, date: int) {
    FirstAirDate(infos, season).Some? && FirstAirDate(infos, season).value > date
  }

  /** The place of the first regular season that airs after the date, or the end. */
  function SpecialsIndex(infos: seq<EpisodeInfo>, regular: seq<int>, date: int): nat {
    if regular == [] || AirsAfter(infos, regular[0], date) then 0 else 1 + SpecialsIndex(infos, regular[1..], date)
  }

  function OrderedSeasons(item: Media): seq<int> {
    var regular := RegularSeasons(item.files);
    if !HasSpecials(item.files) then regular
    else match FirstAirDate(item.infos, 0)
      case None => regular + [0]
      case Some(date) =>
        var k := SpecialsIndex(item.infos, regular, date);
        if k < |regular| then regular[..k] + [0] + regular[k..] else regular + [0]
  }

  lemma {:induction false} SpecialsIndexIsFirst(infos: seq<EpisodeInfo>, regular: seq<int>, date: int)
    ensures var k := SpecialsIndex(infos, regular, date);
      && k <= |regular|
      && (forall i :: 0 <= i < k ==> !AirsAfter(infos, regular[i], date))
      && (k < |regular| ==> AirsAfter(infos, regular[k], date))
  {
    if regular != [] && !AirsAfter(infos, regular[0], date) {
      SpecialsIndexIsFirst(infos, regular[1..], date);
      forall i | 0 < i < SpecialsIndex(infos, regular, date) ensures !AirsAfter(infos, regular[i], date) {
        assert regular[1..][i - 1] == regular[i];
      }
    }
  }

  /** Season `b` of `s` is the first regular one that starts to air after the specials did. */
  ghost predicate FirstDatedAfter(item: Media, b: int) {
    && FirstAirDate(item.infos, 0).Some? && b in RegularSeasons(item.files)
    && AirsAfter(item.infos, b, FirstAirDate(item.infos, 0).value)
    && forall a :: a in RegularSeasons(item.files) && a < b ==> !AirsAfter(item.infos, a, FirstAirDate(item.infos, 0).value)
  }

  ghost predicate SpecialsInPlace(item: Media, s: seq<int>, i: nat)
    requires i < |s|
  {
    if i + 1 < |s| then FirstDatedAfter(item, s[i + 1]) else forall b :: !FirstDatedAfter(item, b)
  }

  /** Each non-negative season with files exactly once, the regular ones ascending. */
  ghost predicate SeasonsOnce(item: Media, s: seq<int>) {
    && (forall i, j :: 0 <= i < j < |s| ==> s[i] != s[j])
    && (forall x :: x in s <==> x >= 0 && exists f :: f in item.files && f.season == x)
    && (forall i, j :: 0 <= i < j < |s| && s[i] != 0 && s[j] != 0 ==> s[i] < s[j])
  }

  /** Specials come directly before the first regular season dated after them, or last when there is none. */
  lemma SeasonOrder(item: Media)
    ensures SeasonsOnce(item, OrderedSeasons(item))
    ensures forall i :: 0 <= i < |OrderedSeasons(item)| && OrderedSeasons(item)[i] == 0 ==>
      SpecialsInPlace(item, OrderedSeasons(item), i)
  {
    var regular, s := RegularSeasons(item.files), OrderedSeasons(item);
    assert forall x :: x in regular ==> x > 0;
    if HasSpecials(item.files) {
      var date := FirstAirDate(item.infos, 0);
      if date.Some? { SpecialsIndexIsFirst(item.infos, regular, date.value); }
      var k := if date.Some? then SpecialsIndex(item.infos, regular, date.value) else |regular|;
      assert s == regular[..k] + [0] + regular[k..];
      ZeroAdded(regular, k);
      if date.Some? { SpecialsArePlaced(item, k); }
      assert SpecialsInPlace(item, s, k);
    } else {
      assert forall i :: 0 <= i < |s| ==> s[i] in regular;
    }
  }

  lemma ZeroAdded(regular: seq<int>, k: nat)
    requires Ascending(regular) && k <= |regular| && forall x :: x in regular ==> x > 0
    ensures var s := regular[..k] + [0] + regular[k..];
      && (forall i :: 0 <= i < |s| ==> (s[i] == 0 <==> i == k))
      && (forall i, j :: 0 <= i < j < |s| && i != k && j != k ==> s[i] < s[j])
      && (forall x :: x in s <==> x in regular || x == 0)
  {
    var s := regular[..k] + [0] + regular[k..];
    assert forall i :: 0 <= i < |s| && i != k ==> s[i] == regular[if i < k then i else i - 1] && s[i] in regular;
    assert regular == regular[..k] + regular[k..];
  }

  lemma SpecialsArePlaced(item: Media, k: nat)
    requires HasSpecials(item.files) && FirstAirDate(item.infos, 0).Some?
    requires k == SpecialsIndex(item.infos, RegularSeasons(item.files), FirstAirDate(item.infos, 0).value)
    requires k <= |RegularSeasons(item.files)|
    requires OrderedSeasons(item) == RegularSeasons(item.files)[..k] + [0] + RegularSeasons(item.files)[k..]
    ensures SpecialsInPlace(item, OrderedSeasons(item), k)
  {
    var regular, date := RegularSeasons(item.files), FirstAirDate(item.infos, 0).value;
    SpecialsIndexIsFirst(item.infos, regular, date);
    if k < |regular| {
      assert OrderedSeasons(item)[k + 1] == regular[k];
      forall a | a in regular && a < regular[k] ensures !AirsAfter(item.infos, a, date) {
        var j :| 0 <= j < |regular| && regular[j] == a;
        assert j < k;
      }
    }
  }

  // ---- episode order --------------------------------------------------------------------

  const MAX_SAFE_INTEGER := 9007199254740991

  function IndexOf(order: seq<int>, season: int): Option<int> {
    if order == [] then None
    else if order[|order| - 1] == season then Some(|order| - 1)
    else IndexOf(order[..|order| - 1], season)
  }

  datatype SortKey = SortKey(rank: int, episode: int)

  function KeyOf(order: seq<int>, f: EpisodeFile): SortKey {
    var index := IndexOf(order, f.season);
    SortKey(if index.Some? then index.value else MAX_SAFE_INTEGER, f.episode)
  }

  predicate Before(a: SortKey, b: SortKey) { a.rank < b.rank || (a.rank == b.rank && a.episode < b.episode) }

  function Inserted(order: seq<int>, s: seq<EpisodeFile>, x: EpisodeFile): seq<EpisodeFile> {
    if s == [] then [x]
    else
      var n := |s| - 1;
      if Before(KeyOf(order, x), KeyOf(order, s[n])) then Inserted(order, s[..n], x) + [s[n]] else s + [x]
  }

  /** A stable sort by season rank, then episode; SortIsUnique shows that no other stable sort differs. */
  function Sorted(order: seq<int>, files: seq<EpisodeFile>): seq<EpisodeFile> {
    if files == [] then [] else Inserted(order, Sorted(order, files[..|files| - 1]), files[|files| - 1])
  }

  function SortedEpisodes(item: Media): seq<EpisodeFile> { Sorted(OrderedSeasons(item), item.files) }

  ghost predicate InOrder(order: seq<int>, s: seq<EpisodeFile>) {
    forall i, j :: 0 <= i < j < |s| ==> !Before(KeyOf(order, s[j]), KeyOf(order, s[i]))
  }

  /** The files with one key, in their order. */
  function WithKey(order: seq<int>, s: seq<EpisodeFile>, k: SortKey): seq<EpisodeFile> {
    if s == [] then []
    else
      var n := |s| - 1;
      WithKey(order, s[..n], k) + if KeyOf(order, s[n]) == k then [s[n]] else []
  }

  lemma {:induction false} InsertedIsPermutation(order: seq<int>, s: seq<EpisodeFile>, x: EpisodeFile)
    ensures multiset(Inserted(order, s, x)) == multiset(s) + multiset{x}
  {
    if s != [] {
      InsertedIsPermutation(order, s[..|s| - 1], x);
      assert s == s[..|s| - 1] + [s[|s| - 1]];
    }
  }

  lemma {:induction false} InsertedMembers(order: seq<int>, s: seq<EpisodeFile>, x: EpisodeFile, y: EpisodeFile)
    ensures y in Inserted(order, s, x) <==> y in s || y == x
  {
    if s != [] {
      InsertedMembers(order, s[..|s| - 1], x, y);
      assert s == s[..|s| - 1] + [s[|s| - 1]];
    }
  }

  lemma {:induction false} InsertedIsSorted(order: seq<int>, s: seq<EpisodeFile>, x: EpisodeFile)
    requires InOrder(order, s)
    ensures InOrder(order, Inserted(order, s, x))
  {
    if s != [] {
      var n := |s| - 1;
      if Before(KeyOf(order, x), KeyOf(order, s[n])) {
        InsertedIsSorted(order, s[..n], x);
        var rest := Inserted(order, s[..n], x);
        forall i | 0 <= i < |rest|
          ensures !Before(KeyOf(order, s[n]), KeyOf(order, rest[i]))
        {
          InsertedMembers(order, s[..n], x, rest[i]);
        }
      } else {
        forall i | 0 <= i < n ensures !Before(KeyOf(order, x), KeyOf(order, s[i])) {
          assert !Before(KeyOf(order, s[n]), KeyOf(order, s[i]));
        }
      }
    }
  }

  lemma {:induction false} InsertedIsStable(order: seq<int>, s: seq<EpisodeFile>, x: EpisodeFile, k: SortKey)
    requires InOrder(order, s)
    ensures WithKey(order, Inserted(order, s, x), k) ==
      if KeyOf(order, x) == k then WithKey(order, s, k) + [x] else WithKey(order, s, k)
  {
    if s != [] {
      var n := |s| - 1;
      if Before(KeyOf(order, x), KeyOf(order, s[n])) {
        InsertedIsStable(order, s[..n], x, k);
        assert (Inserted(order, s[..n], x) + [s[n]])[..|Inserted(order, s[..n], x)|] == Inserted(order, s[..n], x);
      } else {
        assert (s + [x])[..|s|] == s;
      }
    }
  }

  /** A sorted permutation that keeps files with equal keys in their order. */
  lemma {:induction false} SortIsStable(order: seq<int>, files: seq<EpisodeFile>)
    ensures InOrder(order, Sorted(order, files)) && multiset(Sorted(order, files)) == multiset(files)
    ensures forall k :: WithKey(order, Sorted(order, files), k) == WithKey(order, files, k)
  {
    if files != [] {
      var n := |files| - 1;
      assert files == files[..n] + [files[n]];
      SortIsStable(order, files[..n]);
      InsertedIsSorted(order, Sorted(order, files[..n]), files[n]);
      InsertedIsPermutation(order, Sorted(order, files[..n]), files[n]);
      forall k ensures WithKey(order, Sorted(order, files), k) == WithKey(order, files, k) {
        InsertedIsStable(order, Sorted(order, files[..n]), files[n], k);
      }
    }
  }

  lemma {:induction false} WithKeyMembers(order: seq<int>, s: seq<EpisodeFile>, k: SortKey)
    ensures WithKey(order, s, k) != [] <==> exists i :: 0 <= i < |s| && KeyOf(order, s[i]) == k
    ensures |s| > 0 && KeyOf(order, s[|s| - 1]) == k ==>
      |WithKey(order, s, k)| > 0 && WithKey(order, s, k)[|WithKey(order, s, k)| - 1] == s[|s| - 1]
  {
    if s != [] {
      var n := |s| - 1;
      WithKeyMembers(order, s[..n], k);
      if i :| 0 <= i < |s| && KeyOf(order, s[i]) == k {
        if i < n { assert KeyOf(order, s[..n][i]) == k; }
      }
    }
  }

  lemma WithKeyInit(order: seq<int>, s: seq<EpisodeFile>, k: SortKey)
    requires s != []
    ensures var all := WithKey(order, s, k);
      WithKey(order, s[..|s| - 1], k) == if KeyOf(order, s[|s| - 1]) == k then all[..|all| - 1] else all
  {
  }

  lemma LastKeyIsHighest(order: seq<int>, s: seq<EpisodeFile>, t: seq<EpisodeFile>)
    requires InOrder(order, s) && InOrder(order, t) && s != []
    requires forall k :: WithKey(order, s, k) == WithKey(order, t, k)
    ensures t != [] && t[|t| - 1] == s[|s| - 1]
  {
    var last := KeyOf(order, s[|s| - 1]);
    WithKeyMembers(order, s, last);
    WithKeyMembers(order, t, last);
    var i :| 0 <= i < |t| && KeyOf(order, t[i]) == last;
    var other := KeyOf(order, t[|t| - 1]);
    WithKeyMembers(order, t, other);
    WithKeyMembers(order, s, other);
    assert i < |t| - 1 ==> !Before(other, last);
    var j :| 0 <= j < |s| && KeyOf(order, s[j]) == other;
    assert j < |s| - 1 ==> !Before(last, other);
  }

  /** Order and stability determine the result: any stable sort returns the same sequence. */
  lemma {:induction false} SortIsUnique(order: seq<int>, s: seq<EpisodeFile>, t: seq<EpisodeFile>)
    requires InOrder(order, s) && InOrder(order, t)
    requires forall k :: WithKey(order, s, k) == WithKey(order, t, k)
    ensures s == t
  {
    if s != [] {
      LastKeyIsHighest(order, s, t);
      var n, m := |s| - 1, |t| - 1;
      forall k ensures WithKey(order, s[..n], k) == WithKey(order, t[..m], k) {
        WithKeyInit(order, s, k);
        WithKeyInit(order, t, k);
      }
      SortIsUnique(order, s[..n], t[..m]);
      assert s == s[..n] + [s[n]] && t == t[..m] + [t[m]];
    } else if t != [] {
      WithKeyMembers(order, t, KeyOf(order, t[|t| - 1]));
      WithKeyMembers(order, s, KeyOf(order, t[|t| - 1]));
    }
  }

  // ---- the order itself, without the sort keys -----------------------------------------------

  /** `f` comes no later than `g`: by the place of its season, seasons without a place last, then by episode. */
  predicate NotAfter(order: seq<int>, f: EpisodeFile, g: EpisodeFile) {
    && (f.season == g.season ==> f.episode <= g.episode)
    && (forall p, q :: 0 <= p < |order| && 0 <= q < |order| && order[p] == f.season && order[q] == g.season ==> p <= q)
    && (g.season in order ==> f.season in order)
    && (f.season !in order && g.season !in order ==> f.episode <= g.episode)
  }

  /** One place in the order: the same season, or two seasons without a place, and the same episode. */
  predicate SamePlace(order: seq<int>, f: EpisodeFile, g: EpisodeFile) {
    (f.season == g.season || (f.season !in order && g.season !in order)) && f.episode == g.episode
  }

  /** `at` are the positions in `files` of the elements of `s`, each used once; files of one place keep their order. */
  ghost predicate Rearranged(order: seq<int>, files: seq<EpisodeFile>, s: seq<EpisodeFile>, at: seq<nat>) {
    && |at| == |s| == |files|
    && (forall k :: 0 <= k < |at| ==> at[k] < |files| && s[k] == files[at[k]])
    && (forall i, j :: 0 <= i < j < |at| ==> at[i] != at[j])
    && (forall i, j :: 0 <= i < j < |at| && SamePlace(order, s[i], s[j]) ==> at[i] < at[j])
  }

  lemma {:induction false} IndexIsAPlace(order: seq<int>, season: int)
    ensures match IndexOf(order, season)
      case None => season !in order
      case Some(p) => 0 <= p < |order| && order[p] == season
  {
    if order != [] && order[|order| - 1] != season {
      IndexIsAPlace(order[..|order| - 1], season);
      assert order == order[..|order| - 1] + [order[|order| - 1]];
    }
  }

  ghost predicate Once(order: seq<int>) { forall i, j :: 0 <= i < j < |order| ==> order[i] != order[j] }

  lemma KeysOrder(order: seq<int>, f: EpisodeFile, g: EpisodeFile)
    requires Once(order) && |order| < 0x1_0000_0000 && !Before(KeyOf(order, g), KeyOf(order, f))
    ensures NotAfter(order, f, g)
  {
    IndexIsAPlace(order, f.season);
    IndexIsAPlace(order, g.season);
  }

  lemma PlacesHaveOneKey(order: seq<int>, f: EpisodeFile, g: EpisodeFile)
    requires SamePlace(order, f, g)
    ensures KeyOf(order, f) == KeyOf(order, g)
  {
    IndexIsAPlace(order, f.season);
    IndexIsAPlace(order, g.season);
  }

  lemma {:induction false} InsertedAt(order: seq<int>, s: seq<EpisodeFile>, x: EpisodeFile) returns (p: nat)
    ensures p <= |s| && Inserted(order, s, x) == With(s, p, x)
    ensures forall k :: p <= k < |s| ==> Before(KeyOf(order, x), KeyOf(order, s[k]))
  {
    if s == [] || !Before(KeyOf(order, x), KeyOf(order, s[|s| - 1])) {
      p := |s|;
    } else {
      p := InsertedAt(order, s[..|s| - 1], x);
      assert s[p..] == s[..|s| - 1][p..] + [s[|s| - 1]];
    }
  }

  function With<T>(s: seq<T>, p: nat, x: T): seq<T>
    requires p <= |s|
  {
    s[..p] + [x] + s[p..]
  }

  /** Position `k` of a sequence with one more element at `p`, counted without that element. */
  function Back(k: nat, p: nat): nat
    requires k != p
  {
    if k < p then k else k - 1
  }

  lemma WithAt<T>(s: seq<T>, p: nat, x: T)
    requires p <= |s|
    ensures |With(s, p, x)| == |s| + 1
    ensures forall k :: 0 <= k <= |s| ==> With(s, p, x)[k] == if k == p then x else s[Back(k, p)]
  {
  }

  lemma RearrangedPair(order: seq<int>, files: seq<EpisodeFile>, s: seq<EpisodeFile>, at: seq<nat>, p: nat, i: nat, j: nat)
    requires files != [] && Rearranged(order, files[..|files| - 1], s, at) && p <= |s| && i < j <= |s|
    requires forall k :: p <= k < |s| ==> !SamePlace(order, files[|files| - 1], s[k])
    ensures
      var n, x := |files| - 1, files[|files| - 1];
      var a, b := if i == p then n else at[Back(i, p)], if j == p then n else at[Back(j, p)];
      var f, g := if i == p then x else s[Back(i, p)], if j == p then x else s[Back(j, p)];
      a != b && (SamePlace(order, f, g) ==> a < b)
  {
  }

  lemma RearrangedOne(order: seq<int>, files: seq<EpisodeFile>, s: seq<EpisodeFile>, at: seq<nat>, p: nat)
    requires files != [] && Rearranged(order, files[..|files| - 1], s, at) && p <= |s|
    requires forall k :: p <= k < |s| ==> !SamePlace(order, files[|files| - 1], s[k])
    ensures Rearranged(order, files, With(s, p, files[|files| - 1]), With(at, p, |files| - 1))
  {
    var t, to := With(s, p, files[|files| - 1]), With(at, p, |files| - 1);
    WithAt(s, p, files[|files| - 1]);
    WithAt(at, p, |files| - 1);
    forall i, j | 0 <= i < j < |to|
      ensures to[i] != to[j] && (SamePlace(order, t[i], t[j]) ==> to[i] < to[j])
    {
      RearrangedPair(order, files, s, at, p, i, j);
    }
  }

  lemma NoneInItsPlace(order: seq<int>, s: seq<EpisodeFile>, x: EpisodeFile, p: nat)
    requires forall k :: p <= k < |s| ==> Before(KeyOf(order, x), KeyOf(order, s[k]))
    ensures forall k :: p <= k < |s| ==> !SamePlace(order, x, s[k])
  {
    forall k | p <= k < |s|
      ensures !SamePlace(order, x, s[k])
    {
      if SamePlace(order, x, s[k]) { PlacesHaveOneKey(order, x, s[k]); }
    }
  }

  lemma {:induction false} SortRearranges(order: seq<int>, files: seq<EpisodeFile>) returns (at: seq<nat>)
    ensures Rearranged(order, files, Sorted(order, files), at)
  {
    if files == [] {
      at := [];
    } else {
      var n, s := |files| - 1, Sorted(order, files[..|files| - 1]);
      at := SortRearranges(order, files[..n]);
      var p := InsertedAt(order, s, files[n]);
      NoneInItsPlace(order, s, files[n], p);
      RearrangedOne(order, files, s, at, p);
      at := With(at, p, n);
    }
  }

  lemma {:induction false} SeasonCount(files: seq<EpisodeFile>)
    ensures |set f | f in files :: f.season| <= |files|
  {
    if files != [] {
      var n := |files| - 1;
      SeasonCount(files[..n]);
      assert files == files[..n] + [files[n]];
      assert (set f | f in files :: f.season) == (set f | f in files[..n] :: f.season) + {files[n].season};
    }
  }

  lemma {:induction false} OnceCount(order: seq<int>)
    requires Once(order)
    ensures |set x | x in order| == |order|
  {
    if order != [] {
      var n := |order| - 1;
      OnceCount(order[..n]);
      assert order == order[..n] + [order[n]];
      assert (set x | x in order) == (set x | x in order[..n]) + {order[n]};
    }
  }

  lemma FewerSeasonsThanFiles(item: Media)
    ensures Once(OrderedSeasons(item)) && |OrderedSeasons(item)| <= |item.files|
  {
    var order := OrderedSeasons(item);
    SeasonOrder(item);
    OnceCount(order);
    SeasonCount(item.files);
    var seasons, listed := set f | f in item.files :: f.season, set x | x in order;
    assert listed <= seasons && seasons == listed + (seasons - listed);
  }

  /**
   The order in which a series is played, for every array of files (an array has fewer than 2^32 elements): seasons in
   the order they are listed in, a season without a place after all of those, episodes ascending within a season, and
   files of one season and episode as they were.
   */
  lemma EpisodeOrder(item: Media) returns (at: seq<nat>)
    requires |item.files| < 0x1_0000_0000
    ensures Rearranged(OrderedSeasons(item), item.files, SortedEpisodes(item), at)
    ensures forall i, j :: 0 <= i < j < |SortedEpisodes(item)| ==>
      NotAfter(OrderedSeasons(item), SortedEpisodes(item)[i], SortedEpisodes(item)[j])
  {
    var order, s := OrderedSeasons(item), SortedEpisodes(item);
    FewerSeasonsThanFiles(item);
    SortIsStable(order, item.files);
    at := SortRearranges(order, item.files);
    forall i, j | 0 <= i < j < |s| ensures NotAfter(order, s[i], s[j]) { KeysOrder(order, s[i], s[j]); }
  }

  // ---- what is played ----------------------------------------------------------------------

  datatype Progress = Progress(position: real, duration: real, watched: bool)

  /** URL handling of the platform: `filePathFromUrl` and `needsTranscode`. */
  datatype Urls = Urls(pathOf: string -> string, transcode: (string, Option<Details>) -> bool)

  datatype ProgressState = ProgressState(position: real, duration: real, fraction: real, watched: bool, inProgress: bool)

  function Min(a: real, b: real): real { if a <= b then a else b }

  function ProgressStateFor(u: Urls, progress: map<string, Progress>, streamPath: string, hint: real): ProgressState {
    var stored := if u.pathOf(streamPath) in progress then Some(progress[u.pathOf(streamPath)])
                  else if streamPath in progress then Some(progress[streamPath]) else None;
    var storedPosition := if stored.Some? then stored.value.position else 0.0;
    var duration := if stored.Some? && stored.value.duration != 0.0 then stored.value.duration else hint;
    var position := Min(storedPosition, if duration != 0.0 then duration else storedPosition);
    var fraction := if duration > 0.0 then Min(1.0, if position < 0.0 then 0.0 else position / duration) else 0.0;
    var watched := (stored.Some? && stored.value.watched) || fraction >= 0.9;
    ProgressState(position, duration, if watched then 1.0 else fraction, watched, position > 10.0 && !watched)
  }

  function Hint(details: Option<Details>): real { if details.Some? then details.value.duration else 0.0 }

  /** The fields of a play target that decide what is played and where progress is kept. */
  datatype PlayTarget = PlayTarget(
    streamPath: string, transcode: bool, startPosition: real, mediaId: string, kind: Kind,
    season: Option<int>, episode: Option<int>)

  function Watched(u: Urls, progress: map<string, Progress>, f: EpisodeFile): bool {
    ProgressStateFor(u, progress, f.filePath, Hint(f.details)).watched
  }

  function EpisodeTarget(u: Urls, item: Media, f: EpisodeFile, progress: map<string, Progress>): PlayTarget {
    var state := ProgressStateFor(u, progress, f.filePath, Hint(f.details));
    PlayTarget(f.filePath, u.transcode(f.filePath, f.details), if state.inProgress then state.position else 0.0,
               if f.mediaId != "" then f.mediaId else u.pathOf(f.filePath), item.kind, Some(f.season), Some(f.episode))
  }

  function FirstUnwatched(u: Urls, progress: map<string, Progress>, s: seq<EpisodeFile>): nat {
    if s == [] || !Watched(u, progress, s[0]) then 0 else 1 + FirstUnwatched(u, progress, s[1..])
  }

  function StreamPathFor(item: Media): string {
    if item.kind.Movie? || item.files == [] then item.filePath
    else
      var s := SortedEpisodes(item);
      if s != [] && s[0].filePath != "" then s[0].filePath else item.filePath
  }

  function PlayTargetForItem(u: Urls, item: Media, progress: map<string, Progress>): PlayTarget {
    var s := SortedEpisodes(item);
    if !item.kind.Movie? && s != [] then
      var next := FirstUnwatched(u, progress, s);
      EpisodeTarget(u, item, if next < |s| then s[next] else s[0], progress)
    else
      var path := StreamPathFor(item);
      var state := ProgressStateFor(u, progress, path, Hint(item.details));
      PlayTarget(path, u.transcode(path, item.details), if state.inProgress then state.position else 0.0,
                 item.id, item.kind, None, None)
  }

  lemma {:induction false} FirstUnwatchedIsFirst(u: Urls, progress: map<string, Progress>, s: seq<EpisodeFile>)
    ensures var n := FirstUnwatched(u, progress, s);
      n <= |s| && (forall i :: 0 <= i < n ==> Watched(u, progress, s[i])) && (n < |s| ==> !Watched(u, progress, s[n]))
  {
    if s != [] && Watched(u, progress, s[0]) {
      FirstUnwatchedIsFirst(u, progress, s[1..]);
      forall i | 0 < i < FirstUnwatched(u, progress, s) ensures Watched(u, progress, s[i]) { assert s[1..][i - 1] == s[i]; }
    }
  }

  predicate PlaysAt(u: Urls, item: Media, progress: map<string, Progress>, n: nat)
    requires n < |SortedEpisodes(item)|
  {
    PlayTargetForItem(u, item, progress) == EpisodeTarget(u, item, SortedEpisodes(item)[n], progress)
  }

  ghost predicate NextUp(u: Urls, item: Media, progress: map<string, Progress>, n: nat)
    requires n < |SortedEpisodes(item)|
  {
    if forall f :: f in item.files ==> Watched(u, progress, f) then n == 0
    else !Watched(u, progress, SortedEpisodes(item)[n]) && forall i :: 0 <= i < n ==> Watched(u, progress, SortedEpisodes(item)[i])
  }

  /**
   A series plays an episode of its own: in season order the first that is not watched, or the first of all when
   every one is; it resumes at the stored position only when that is past ten seconds and the episode is unfinished.
   */
  lemma PlaysTheFirstUnwatched(u: Urls, item: Media, progress: map<string, Progress>)
    requires !item.kind.Movie? && item.files != []
    ensures exists n: nat :: n < |SortedEpisodes(item)| && NextUp(u, item, progress, n) && PlaysAt(u, item, progress, n)
    ensures PlayTargetForItem(u, item, progress).streamPath in set f | f in item.files :: f.filePath
    ensures PlayTargetForItem(u, item, progress).startPosition == 0.0 || PlayTargetForItem(u, item, progress).startPosition > 10.0
  {
    var s := SortedEpisodes(item);
    SortIsStable(OrderedSeasons(item), item.files);
    FirstUnwatchedIsFirst(u, progress, s);
    assert |multiset(s)| == |s| && |multiset(item.files)| == |item.files|;
    var n := if FirstUnwatched(u, progress, s) < |s| then FirstUnwatched(u, progress, s) else 0;
    assert PlaysAt(u, item, progress, n);
    forall f ensures f in item.files <==> f in s {
      assert f in item.files <==> f in multiset(item.files);
      assert f in s <==> f in multiset(s);
    }
    assert s[n] in item.files;
  }

  /** `f` is a file of the series, and no unwatched one (no other one at all, when all are watched) comes before it. */
  ghost predicate FirstToPlay(u: Urls, item: Media, progress: map<string, Progress>, f: EpisodeFile) {
    && f in item.files
    && if forall g :: g in item.files ==> Watched(u, progress, g)
       then forall g :: g in item.files ==> NotAfter(OrderedSeasons(item), f, g)
       else !Watched(u, progress, f) && forall g :: g in item.files && !Watched(u, progress, g) ==> NotAfter(OrderedSeasons(item), f, g)
  }

  lemma NotAfterItself(order: seq<int>, f: EpisodeFile)
    requires Once(order)
    ensures NotAfter(order, f, f)
  {
  }

  lemma SortedMembers(item: Media)
    ensures forall f :: f in item.files <==> f in SortedEpisodes(item)
  {
    SortIsStable(OrderedSeasons(item), item.files);
    forall f ensures f in item.files <==> f in SortedEpisodes(item) {
      assert f in item.files <==> f in multiset(item.files);
      assert f in SortedEpisodes(item) <==> f in multiset(SortedEpisodes(item));
    }
  }

  /** The same law against the order itself, and what the target names. */
  lemma PlaysTheFirstInOrder(u: Urls, item: Media, progress: map<string, Progress>) returns (f: EpisodeFile)
    requires !item.kind.Movie? && 0 < |item.files| < 0x1_0000_0000
    ensures FirstToPlay(u, item, progress, f)
    ensures
      var target := PlayTargetForItem(u, item, progress);
      && target.streamPath == f.filePath && target.season == Some(f.season) && target.episode == Some(f.episode)
      && target.mediaId == (if f.mediaId != "" then f.mediaId else u.pathOf(f.filePath)) && target.kind == item.kind
      && target.transcode == u.transcode(f.filePath, f.details) && ResumesAt(u, progress, f.filePath, f.details, target.startPosition)
  {
    PlaysTheFirstUnwatched(u, item, progress);
    var n: nat :| n < |SortedEpisodes(item)| && NextUp(u, item, progress, n) && PlaysAt(u, item, progress, n);
    f := SortedEpisodes(item)[n];
    NextUpIsFirst(u, item, progress, n);
  }

  /** A file that is none of the first `n` does not come before the one after them. */
  lemma NoneOfTheFirst(item: Media, n: nat, g: EpisodeFile)
    requires |item.files| < 0x1_0000_0000 && n < |SortedEpisodes(item)| && g in SortedEpisodes(item)
    requires forall i :: 0 <= i < n ==> SortedEpisodes(item)[i] != g
    ensures NotAfter(OrderedSeasons(item), SortedEpisodes(item)[n], g)
  {
    var s := SortedEpisodes(item);
    var k :| 0 <= k < |s| && s[k] == g;
    if k == n {
      FewerSeasonsThanFiles(item);
      NotAfterItself(OrderedSeasons(item), g);
    } else {
      var at := EpisodeOrder(item);
    }
  }

  /** From where a stream starts: where it was left, when it is in progress. */
  predicate ResumesAt(u: Urls, progress: map<string, Progress>, path: string, details: Option<Details>, start: real) {
    var state := ProgressStateFor(u, progress, path, Hint(details));
    (state.inProgress ==> start == state.position) && (!state.inProgress ==> start == 0.0)
  }

  /** A movie plays its own file even when it lists episodes, and so does a series without any. */
  lemma OthersPlayTheirFile(u: Urls, item: Media, progress: map<string, Progress>)
    requires item.kind.Movie? || item.files == []
    ensures
      var target := PlayTargetForItem(u, item, progress);
      && target.streamPath == item.filePath && target.mediaId == item.id && target.kind == item.kind
      && target.season.None? && target.episode.None?
      && target.transcode == u.transcode(item.filePath, item.details)
      && ResumesAt(u, progress, item.filePath, item.details, target.startPosition)
  {
    SortedMembers(item);
  }

  lemma NextUpIsFirst(u: Urls, item: Media, progress: map<string, Progress>, n: nat)
    requires |item.files| < 0x1_0000_0000 && n < |SortedEpisodes(item)| && NextUp(u, item, progress, n)
    ensures FirstToPlay(u, item, progress, SortedEpisodes(item)[n])
  {
    SortedMembers(item);
    forall g | g in item.files && (n == 0 || !Watched(u, progress, g))
      ensures NotAfter(OrderedSeasons(item), SortedEpisodes(item)[n], g)
    {
      NoneOfTheFirst(item, n, g);
    }
  }

  // ---- watched and resumed -------------------------------------------------------------------

  /** What is stored for a stream: under the path of its file first, else under the stream's own name. */
  predicate StoredAs(u: Urls, progress: map<string, Progress>, streamPath: string, p: Progress) {
    var path := u.pathOf(streamPath);
    (path in progress && progress[path] == p) || (path !in progress && streamPath in progress && progress[streamPath] == p)
  }

  lemma FractionReaches(position: real, duration: real)
    requires duration > 0.0 && position >= 0.0
    ensures position / duration >= 0.9 <==> 10.0 * position >= 9.0 * duration
  {
    var q := position / duration;
    assert q * duration == position;
    if q >= 0.9 { assert (q - 0.9) * duration >= 0.0; }
    if q < 0.9 { assert (0.9 - q) * duration > 0.0; }
  }

  /**
   A stream is watched if and only if that is stored, or nine tenths of its duration are reached; the hint counts only
   when no duration is stored.  It resumes past ten seconds.
   */
  lemma WatchedMeaning(u: Urls, progress: map<string, Progress>, streamPath: string, hint: real, p: Progress)
    requires StoredAs(u, progress, streamPath, p)
    ensures
      var r := ProgressStateFor(u, progress, streamPath, hint);
      var duration := if p.duration != 0.0 then p.duration else hint;
      && r.duration == duration
      && (r.watched <==> p.watched || (duration > 0.0 && 10.0 * p.position >= 9.0 * duration))
      && (r.inProgress <==> !r.watched && p.position > 10.0 && (duration == 0.0 || duration > 10.0))
      && (r.inProgress ==> r.position == if duration == 0.0 || p.position <= duration then p.position else duration)
  {
    var duration := if p.duration != 0.0 then p.duration else hint;
    if duration > 0.0 && p.position >= 0.0 {
      FractionReaches(Min(p.position, duration), duration);
    }
  }

  /** Without anything stored a stream is neither watched nor resumed. */
  lemma NothingStored(u: Urls, progress: map<string, Progress>, streamPath: string, hint: real)
    requires u.pathOf(streamPath) !in progress && streamPath !in progress
    ensures
      var r := ProgressStateFor(u, progress, streamPath, hint);
      !r.watched && !r.inProgress && r.fraction == 0.0 && r.duration == hint
  {
    if hint > 0.0 { assert 0.0 / hint == 0.0; }
  }
}
