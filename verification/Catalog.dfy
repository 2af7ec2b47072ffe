/**
 The two catalog transports: canonical items to the legacy library, or to a compact index and back
 (apps/mobile/mobileLanClient.ts and apps/mobile/mobileDomain.ts).
 */
module Catalog {
  import opened Options
  import opened MobileLibrary

  datatype ItemKind = MovieItem | VideoItem | SeriesItem | EpisodeItem | Unknown

  /** An item as the server sends it. */
  datatype Canonical = Canonical(
    id: string, kind: ItemKind, animeLikely: bool, title: string, year: Option<int>,
    poster: string, backdrop: string, logo: string, still: string, summary: string, rating: real, genres: seq<string>,
    lastPlayedAt: int, seriesId: Option<string>, season: Option<int>, episode: Option<int>)

  datatype Library = Library(movies: seq<Media>, tvShows: seq<Media>, animeShows: seq<Media>, others: seq<Media>)

  // ---- legacy route ----------------------------------------------------------------------

  function OrDefault(x: Option<int>, fallback: int): int { if x.Some? then x.value else fallback }

  function LegacyEpisode(e: Canonical): EpisodeFile {
    EpisodeFile(OrDefault(e.season, 1), OrDefault(e.episode, 0), e.id, e.id,
                if e.title != "" then Named(e.title) else Numbered(e.episode), e.still, None)
  }

  function LegacyEpisodes(episodes: seq<Canonical>): (r: seq<EpisodeFile>)
    ensures |r| == |episodes| && forall i :: 0 <= i < |r| ==> r[i] == LegacyEpisode(episodes[i])
  {
    if episodes == [] then [] else [LegacyEpisode(episodes[0])] + LegacyEpisodes(episodes[1..])
  }

  function KindOf(c: Canonical): Kind {
    if c.animeLikely then Anime else if c.kind.SeriesItem? || c.kind.EpisodeItem? then Tv else Movie
  }

  function LegacyMedia(c: Canonical, episodes: seq<Canonical>): Media {
    Media(c.id, KindOf(c), if c.title != "" then c.title else "Untitled", c.id, c.year, c.poster, c.backdrop, c.logo,
          c.summary, c.rating, c.genres, if c.lastPlayedAt != 0 then Some(c.lastPlayedAt) else None,
          LegacyEpisodes(episodes), [], None, None)
  }

  /** The episodes of one series, in the order the server listed them. */
  function EpisodesOf(items: seq<Canonical>, series: string): seq<Canonical> {
    if items == [] then []
    else
      var n := |items| - 1;
      EpisodesOf(items[..n], series)
      + if items[n].kind.EpisodeItem? && items[n].seriesId == Some(series) then [items[n]] else []
  }

  function Movies(items: seq<Canonical>): seq<Media> {
    if items == [] then []
    else
      (if items[0].kind.MovieItem? || items[0].kind.VideoItem? then [LegacyMedia(items[0], [])] else []) + Movies(items[1..])
  }

  /** The series among `items` of one kind, each with its episodes from the whole list. */
  function Shows(all: seq<Canonical>, items: seq<Canonical>, kind: Kind): seq<Media> {
    if items == [] then []
    else
      (if items[0].kind.SeriesItem? && KindOf(items[0]) == kind then [LegacyMedia(items[0], EpisodesOf(all, items[0].id))] else [])
      + Shows(all, items[1..], kind)
  }

  function LegacyLibrary(items: seq<Canonical>): Library { Library(Movies(items), Shows(items, items, Tv), Shows(items, items, Anime), []) }

  /** The loop that groups the episodes by series. */
  method GroupEpisodes(items: seq<Canonical>) returns (bySeries: map<string, seq<Canonical>>)
    ensures forall s :: (if s in bySeries then bySeries[s] else []) == EpisodesOf(items, s)
  {
    bySeries := map[];
    for i := 0 to |items|
      invariant forall s :: (if s in bySeries then bySeries[s] else []) == EpisodesOf(items[..i], s)
    {
      assert items[..i + 1][..i] == items[..i];
      var item := items[i];
      if item.kind.EpisodeItem? && item.seriesId.Some? {
        var episodes := if item.seriesId.value in bySeries then bySeries[item.seriesId.value] else [];
        bySeries := bySeries[item.seriesId.value := episodes + [item]];
      }
    }
    assert items[..|items|] == items;
  }

  /** The series of one kind, each with its episodes from the filled map. */
  function ShowsFrom(bySeries: map<string, seq<Canonical>>, items: seq<Canonical>, kind: Kind): seq<Media> {
    if items == [] then []
    else
      (if items[0].kind.SeriesItem? && KindOf(items[0]) == kind then
         [LegacyMedia(items[0], if items[0].id in bySeries then bySeries[items[0].id] else [])] else [])
      + ShowsFrom(bySeries, items[1..], kind)
  }

  lemma {:induction false} ShowsFromGroups(bySeries: map<string, seq<Canonical>>, all: seq<Canonical>, items: seq<Canonical>, kind: Kind)
    requires forall s :: (if s in bySeries then bySeries[s] else []) == EpisodesOf(all, s)
    ensures ShowsFrom(bySeries, items, kind) == Shows(all, items, kind)
  {
    if items != [] { ShowsFromGroups(bySeries, all, items[1..], kind); }
  }

  method BuildLegacyLibrary(items: seq<Canonical>) returns (library: Library)
    ensures library == LegacyLibrary(items)
  {
    var bySeries := GroupEpisodes(items);
    ShowsFromGroups(bySeries, items, items, Tv);
    ShowsFromGroups(bySeries, items, items, Anime);
    library := Library(Movies(items), ShowsFrom(bySeries, items, Tv), ShowsFrom(bySeries, items, Anime), []);
  }

  // ---- what the legacy library holds -------------------------------------------------------

  predicate IsMovie(c: Canonical) { c.kind.MovieItem? || c.kind.VideoItem? }

  predicate IsShow(c: Canonical, anime: bool) { c.kind.SeriesItem? && c.animeLikely == anime }

  predicate IsEpisode(c: Canonical, series: string) { c.kind.EpisodeItem? && c.seriesId == Some(series) }

  /** `at` are the positions of the items to take, ascending. */
  ghost predicate PositionsOf(items: seq<Canonical>, takes: Canonical -> bool, at: seq<nat>) {
    && (forall i, j :: 0 <= i < j < |at| ==> at[i] < at[j])
    && (forall k :: 0 <= k < |at| ==> at[k] < |items|)
    && (forall i :: 0 <= i < |items| ==> (takes(items[i]) <==> i in at))
  }

  /** `ms` stand for the items to take, which are at `at`. */
  ghost predicate Stand<M>(items: seq<Canonical>, ms: seq<M>, takes: Canonical -> bool, fits: (M, Canonical) -> bool, at: seq<nat>) {
    PositionsOf(items, takes, at) && |at| == |ms| && forall k :: 0 <= k < |at| ==> fits(ms[k], items[at[k]])
  }

  function Shifted(at: seq<nat>): seq<nat> { seq(|at|, i requires 0 <= i < |at| => at[i] + 1) }

  lemma ShiftedHolds(at: seq<nat>, i: nat)
    ensures 0 !in Shifted(at) && (i in at <==> i + 1 in Shifted(at))
  {
    if i in at {
      var k :| 0 <= k < |at| && at[k] == i;
      assert Shifted(at)[k] == i + 1;
    }
  }

  lemma PositionsAfterOther(items: seq<Canonical>, takes: Canonical -> bool, at: seq<nat>)
    requires items != [] && PositionsOf(items[1..], takes, at) && !takes(items[0])
    ensures PositionsOf(items, takes, Shifted(at))
  {
    forall i | 0 <= i < |items|
      ensures takes(items[i]) <==> i in Shifted(at)
    {
      if i > 0 {
        assert items[1..][i - 1] == items[i];
        ShiftedHolds(at, i - 1);
      } else {
        ShiftedHolds(at, 0);
      }
    }
  }

  lemma StandAfterOther<M>(items: seq<Canonical>, ms: seq<M>, takes: Canonical -> bool, fits: (M, Canonical) -> bool, at: seq<nat>)
    requires items != [] && Stand(items[1..], ms, takes, fits, at) && !takes(items[0])
    ensures Stand(items, ms, takes, fits, Shifted(at))
  {
    PositionsAfterOther(items, takes, at);
    forall k | 0 <= k < |at|
      ensures fits(ms[k], items[Shifted(at)[k]])
    {
      ShiftedItem(items, at, k);
    }
  }

  lemma ShiftedItem(items: seq<Canonical>, at: seq<nat>, k: nat)
    requires items != [] && k < |at| && at[k] < |items| - 1
    ensures Shifted(at)[k] < |items| && items[Shifted(at)[k]] == items[1..][at[k]]
  {
  }

  lemma ShiftedWithFirst(at: seq<nat>, i: nat)
    ensures i in [0] + Shifted(at) <==> i == 0 || i - 1 in at
  {
    assert i in [0] + Shifted(at) <==> i == 0 || i in Shifted(at);
    if i > 0 { ShiftedHolds(at, i - 1); }
  }

  lemma PositionsAfterOne(items: seq<Canonical>, takes: Canonical -> bool, at: seq<nat>)
    requires items != [] && PositionsOf(items[1..], takes, at) && takes(items[0])
    ensures PositionsOf(items, takes, [0] + Shifted(at))
  {
    var all := [0] + Shifted(at);
    assert forall k :: 0 <= k < |all| ==> all[k] == if k == 0 then 0 else at[k - 1] + 1;
    forall i | 0 <= i < |items|
      ensures takes(items[i]) <==> i in all
    {
      ShiftedWithFirst(at, i);
      if i > 0 { assert items[1..][i - 1] == items[i]; }
    }
  }

  lemma FitsAfterOne<M>(items: seq<Canonical>, m: M, ms: seq<M>, fits: (M, Canonical) -> bool, at: seq<nat>, k: nat)
    requires |at| == |ms| && k <= |at| && items != [] && fits(m, items[0])
    requires k > 0 ==> at[k - 1] < |items| - 1 && fits(ms[k - 1], items[1..][at[k - 1]])
    ensures ([0] + Shifted(at))[k] < |items| && fits(([m] + ms)[k], items[([0] + Shifted(at))[k]])
  {
  }

  lemma StandAfterOne<M>(items: seq<Canonical>, m: M, ms: seq<M>, takes: Canonical -> bool, fits: (M, Canonical) -> bool, at: seq<nat>)
    requires items != [] && Stand(items[1..], ms, takes, fits, at) && takes(items[0]) && fits(m, items[0])
    ensures Stand(items, [m] + ms, takes, fits, [0] + Shifted(at))
  {
    PositionsAfterOne(items, takes, at);
    forall k | 0 <= k <= |at|
      ensures fits(([m] + ms)[k], items[([0] + Shifted(at))[k]])
    {
      FitsAfterOne(items, m, ms, fits, at, k);
    }
  }

  /** The fields of the item `c`; anime first, then series and episodes, then movies. */
  predicate IsItem(m: Media, c: Canonical) {
    && m.id == c.id && m.filePath == c.id && m.title == (if c.title == "" then "Untitled" else c.title) && m.year == c.year
    && m.poster == c.poster && m.backdrop == c.backdrop && m.logo == c.logo && m.summary == c.summary && m.rating == c.rating
    && m.genres == c.genres && m.details.None? && m.infos == []
    && (if c.lastPlayedAt == 0 then m.lastPlayed.None? else m.lastPlayed == Some(c.lastPlayedAt))
    && (m.kind.Anime? <==> c.animeLikely)
    && (m.kind.Movie? <==> !c.animeLikely && !c.kind.SeriesItem? && !c.kind.EpisodeItem?)
  }

  /** The fields of the episode `e`: season 1 and episode 0 where the server gives none. */
  predicate IsFile(f: EpisodeFile, e: Canonical) {
    && f.mediaId == e.id && f.filePath == e.id && f.still == e.still && f.details.None?
    && (if e.season.None? then f.season == 1 else e.season == Some(f.season))
    && (if e.episode.None? then f.episode == 0 else e.episode == Some(f.episode))
    && f.title == (if e.title == "" then Numbered(e.episode) else Named(e.title))
  }

  /** Exactly the episodes that name the series, in the order the server listed them. */
  ghost predicate HasEpisodes(items: seq<Canonical>, series: string, files: seq<EpisodeFile>) {
    exists at: seq<nat> :: EpisodesAt(items, series, files, at)
  }

  ghost predicate EpisodesAt(items: seq<Canonical>, series: string, files: seq<EpisodeFile>, at: seq<nat>) {
    Stand(items, files, c => IsEpisode(c, series), IsFile, at)
  }

  lemma EpisodesAppend(items: seq<Canonical>, series: string, files: seq<EpisodeFile>, at: seq<nat>)
    requires items != [] && EpisodesAt(items[..|items| - 1], series, files, at)
    ensures
      var n := |items| - 1;
      if IsEpisode(items[n], series) then EpisodesAt(items, series, files + [LegacyEpisode(items[n])], at + [n])
      else EpisodesAt(items, series, files, at)
  {
    var n := |items| - 1;
    assert forall i :: i in at + [n] <==> i in at || i == n;
    assert forall i :: 0 <= i < n ==> items[..n][i] == items[i];
  }

  lemma LegacyEpisodesMore(episodes: seq<Canonical>, e: Canonical)
    ensures LegacyEpisodes(episodes + [e]) == LegacyEpisodes(episodes) + [LegacyEpisode(e)]
  {
  }

  lemma {:induction false} LegacyEpisodesAre(items: seq<Canonical>, series: string) returns (at: seq<nat>)
    ensures EpisodesAt(items, series, LegacyEpisodes(EpisodesOf(items, series)), at)
  {
    if items == [] {
      at := [];
    } else {
      var n := |items| - 1;
      var before := EpisodesOf(items[..n], series);
      at := LegacyEpisodesAre(items[..n], series);
      EpisodesAppend(items, series, LegacyEpisodes(before), at);
      if IsEpisode(items[n], series) {
        LegacyEpisodesMore(before, items[n]);
        at := at + [n];
      } else {
        assert before + [] == before;
      }
    }
  }

  predicate FitsMovie(m: Media, c: Canonical) { IsItem(m, c) && m.files == [] }

  lemma {:induction false} MoviesAt(items: seq<Canonical>) returns (at: seq<nat>)
    ensures Stand(items, Movies(items), IsMovie, FitsMovie, at)
  {
    if items == [] {
      at := [];
    } else {
      at := MoviesAt(items[1..]);
      if IsMovie(items[0]) {
        StandAfterOne(items, LegacyMedia(items[0], []), Movies(items[1..]), IsMovie, FitsMovie, at);
        at := [0] + Shifted(at);
      } else {
        StandAfterOther(items, Movies(items[1..]), IsMovie, FitsMovie, at);
        at := Shifted(at);
      }
    }
  }

  ghost predicate FitsShow(all: seq<Canonical>, m: Media, c: Canonical) { IsItem(m, c) && HasEpisodes(all, c.id, m.files) }

  ghost predicate ShowsStand(all: seq<Canonical>, items: seq<Canonical>, shows: seq<Media>, anime: bool, at: seq<nat>) {
    Stand(items, shows, c => IsShow(c, anime), (m, c) => FitsShow(all, m, c), at)
  }

  lemma ShowsPrepend(all: seq<Canonical>, items: seq<Canonical>, shows: seq<Media>, anime: bool, at: seq<nat>)
    requires items != [] && ShowsStand(all, items[1..], shows, anime, at)
    ensures
      if IsShow(items[0], anime) then ShowsStand(all, items, [LegacyMedia(items[0], EpisodesOf(all, items[0].id))] + shows, anime, [0] + Shifted(at))
      else ShowsStand(all, items, shows, anime, Shifted(at))
  {
    var fits := (m, c) => FitsShow(all, m, c);
    if IsShow(items[0], anime) {
      var m := LegacyMedia(items[0], EpisodesOf(all, items[0].id));
      var episodes := LegacyEpisodesAre(all, items[0].id);
      assert FitsShow(all, m, items[0]);
      StandAfterOne(items, m, shows, c => IsShow(c, anime), fits, at);
    } else {
      StandAfterOther(items, shows, c => IsShow(c, anime), fits, at);
    }
  }

  lemma {:induction false} ShowsAt(all: seq<Canonical>, items: seq<Canonical>, anime: bool) returns (at: seq<nat>)
    ensures ShowsStand(all, items, Shows(all, items, if anime then Anime else Tv), anime, at)
  {
    if items == [] {
      at := [];
    } else {
      var rest := Shows(all, items[1..], if anime then Anime else Tv);
      at := ShowsAt(all, items[1..], anime);
      ShowsPrepend(all, items, rest, anime, at);
      if IsShow(items[0], anime) {
        at := [0] + Shifted(at);
      } else {
        at := Shifted(at);
        assert [] + rest == rest;
      }
    }
  }

  /**
   The library holds exactly the movies and videos, the series and the anime series, each collection in the server's
   order and each series with exactly its own episodes.
   */
  lemma LegacyLibraryHolds(items: seq<Canonical>) returns (movies: seq<nat>, tv: seq<nat>, anime: seq<nat>)
    ensures
      var l := LegacyLibrary(items);
      && Stand(items, l.movies, IsMovie, FitsMovie, movies)
      && ShowsStand(items, items, l.tvShows, false, tv)
      && ShowsStand(items, items, l.animeShows, true, anime)
      && l.others == []
  {
    movies := MoviesAt(items);
    tv := ShowsAt(items, items, false);
    anime := ShowsAt(items, items, true);
  }

  // ---- compact route -----------------------------------------------------------------------

  datatype Reference = Reference(key: string, season: Option<int>, episode: Option<int>, duration: Option<real>)

  datatype Card = Card(
    id: string, kind: Kind, title: string, year: Option<int>, poster: string, backdrop: string, logo: Option<string>,
    summary: string, rating: real, genres: seq<string>, lastPlayed: Option<int>, references: seq<Reference>)

  datatype Index = Index(revision: int, movies: seq<Card>, tvShows: seq<Card>, animeShows: seq<Card>, others: seq<Card>)

  function ReferencesOf(files: seq<EpisodeFile>): (r: seq<Reference>)
    ensures |r| == |files|
    ensures forall i :: 0 <= i < |r| ==>
      r[i] == Reference(if files[i].mediaId != "" then files[i].mediaId else files[i].filePath, Some(files[i].season), Some(files[i].episode), None)
  {
    if files == [] then []
    else
      [Reference(if files[0].mediaId != "" then files[0].mediaId else files[0].filePath, Some(files[0].season), Some(files[0].episode), None)]
      + ReferencesOf(files[1..])
  }

  function CardOf(m: Media): Card {
    Card(m.id, m.kind, m.title, m.year, m.poster, m.backdrop, if m.logo != "" then Some(m.logo) else None, m.summary, m.rating,
         m.genres, m.lastPlayed, if m.files != [] then ReferencesOf(m.files) else [Reference(m.id, None, None, None)])
  }

  function Cards(items: seq<Media>): (r: seq<Card>)
    ensures |r| == |items| && forall i :: 0 <= i < |r| ==> r[i] == CardOf(items[i])
  {
    if items == [] then [] else [CardOf(items[0])] + Cards(items[1..])
  }

  function CompactIndex(items: seq<Canonical>, revision: int): Index {
    var library := LegacyLibrary(items);
    Index(revision, Cards(library.movies), Cards(library.tvShows), Cards(library.animeShows), [])
  }

  function DurationDetails(r: Reference): Option<Details> {
    if r.duration.Some? && r.duration.value != 0.0 then Some(Details("", "", r.duration.value)) else None
  }

  /** References that name a season and an episode. */
  function FilesOf(references: seq<Reference>): seq<EpisodeFile> {
    if references == [] then []
    else
      var r := references[0];
      (if r.season.Some? && r.episode.Some? then
         [EpisodeFile(r.season.value, r.episode.value, r.key, r.key, Numbered(r.episode), "", DurationDetails(r))]
       else [])
      + FilesOf(references[1..])
  }

  function FromCard(c: Card, revision: int): Media {
    var files := FilesOf(c.references);
    Media(c.id, c.kind, c.title, if c.references != [] then c.references[0].key else "", c.year, c.poster, c.backdrop,
          if c.logo.Some? then c.logo.value else "", c.summary, c.rating, c.genres, c.lastPlayed, files, [],
          if files == [] && c.references != [] then DurationDetails(c.references[0]) else None, Some(revision))
  }

  function FromCards(cards: seq<Card>, revision: int): (r: seq<Media>)
    ensures |r| == |cards| && forall i :: 0 <= i < |r| ==> r[i] == FromCard(cards[i], revision)
  {
    if cards == [] then [] else [FromCard(cards[0], revision)] + FromCards(cards[1..], revision)
  }

  function LibraryFromIndex(x: Index): Library {
    Library(FromCards(x.movies, x.revision), FromCards(x.tvShows, x.revision), FromCards(x.animeShows, x.revision), FromCards(x.others, x.revision))
  }

  // ---- same playback meaning -----------------------------------------------------------------

  /** Everything of a file except its title and picture. */
  function Bare(f: EpisodeFile): EpisodeFile { f.(title := Numbered(None), still := "") }

  function BareFiles(files: seq<EpisodeFile>): (r: seq<EpisodeFile>)
    ensures |r| == |files| && forall i :: 0 <= i < |r| ==> r[i] == Bare(files[i])
  {
    if files == [] then [] else BareFiles(files[..|files| - 1]) + [Bare(files[|files| - 1])]
  }

  /** What both routes give for one item, playback aside. */
  predicate SameCard(a: Media, b: Media) {
    && a.id == b.id && a.kind == b.kind && a.title == b.title && a.year == b.year && a.poster == b.poster
    && a.backdrop == b.backdrop && a.logo == b.logo && a.summary == b.summary && a.rating == b.rating
    && a.genres == b.genres && a.lastPlayed == b.lastPlayed && a.details == b.details && a.infos == b.infos
    && (a.files == [] ==> a.filePath == b.filePath)
  }

  /** The same item, the same episodes in playing order, and the same thing to play whatever was watched. */
  ghost predicate SameMeaning(a: Media, b: Media) {
    && SameCard(a, b)
    && BareFiles(SortedEpisodes(a)) == BareFiles(SortedEpisodes(b))
    && forall u, progress :: PlayTargetForItem(u, a, progress) == PlayTargetForItem(u, b, progress)
  }

  ghost predicate SameItems(a: seq<Media>, b: seq<Media>) {
    |a| == |b| && forall i :: 0 <= i < |a| ==> SameMeaning(a[i], b[i])
  }

  lemma {:induction false} FilesOfReferences(files: seq<EpisodeFile>)
    requires forall f :: f in files ==> f.mediaId == f.filePath && f.details.None?
    ensures BareFiles(FilesOf(ReferencesOf(files))) == BareFiles(files)
  {
    if files != [] {
      var r := ReferencesOf(files);
      assert r[1..] == ReferencesOf(files[1..]);
      FilesOfReferences(files[1..]);
      var rest := FilesOf(r[1..]);
      assert FilesOf(r) == [FilesOf(r)[0]] + rest;
      var back, bare := BareFiles(FilesOf(r)), BareFiles(files);
      assert |back| == |bare| by { assert |BareFiles(rest)| == |BareFiles(files[1..])|; }
      forall i | 0 <= i < |bare| ensures back[i] == bare[i] {
        if i > 0 { assert BareFiles(rest)[i - 1] == BareFiles(files[1..])[i - 1]; }
      }
    }
  }

  lemma {:induction false} SameRegularSeasons(a: seq<EpisodeFile>, b: seq<EpisodeFile>)
    requires BareFiles(a) == BareFiles(b)
    ensures RegularSeasons(a) == RegularSeasons(b)
  {
    SameLength(a, b);
    if a != [] {
      assert Bare(a[|a| - 1]) == Bare(b[|b| - 1]);
      SameInit(a, b);
      SameRegularSeasons(a[..|a| - 1], b[..|b| - 1]);
    }
  }

  lemma SameLength(a: seq<EpisodeFile>, b: seq<EpisodeFile>)
    requires BareFiles(a) == BareFiles(b)
    ensures |a| == |b| && forall i :: 0 <= i < |a| ==> Bare(a[i]) == Bare(b[i])
  {
    assert |BareFiles(a)| == |BareFiles(b)|;
    forall i | 0 <= i < |a| ensures Bare(a[i]) == Bare(b[i]) { assert BareFiles(a)[i] == BareFiles(b)[i]; }
  }

  lemma SameInit(a: seq<EpisodeFile>, b: seq<EpisodeFile>)
    requires BareFiles(a) == BareFiles(b) && a != [] && b != []
    ensures BareFiles(a[..|a| - 1]) == BareFiles(b[..|b| - 1])
  {
    SameLength(a, b);
  }

  lemma SameSeasonOrder(a: Media, b: Media)
    requires BareFiles(a.files) == BareFiles(b.files) && a.infos == b.infos
    ensures OrderedSeasons(a) == OrderedSeasons(b)
  {
    SameRegularSeasons(a.files, b.files);
    SameLength(a.files, b.files);
    assert HasSpecials(a.files) <==> HasSpecials(b.files) by {
      if HasSpecials(a.files) {
        var i :| 0 <= i < |a.files| && a.files[i].season == 0;
        assert Bare(b.files[i]).season == 0;
      }
      if HasSpecials(b.files) {
        var i :| 0 <= i < |b.files| && b.files[i].season == 0;
        assert Bare(a.files[i]).season == 0;
      }
    }
  }

  /** Sorting looks at nothing that the routes treat differently. */
  lemma {:induction false} InsertedIsBare(order: seq<int>, s: seq<EpisodeFile>, x: EpisodeFile)
    ensures BareFiles(Inserted(order, s, x)) == Inserted(order, BareFiles(s), Bare(x))
  {
    if s != [] {
      var n := |s| - 1;
      assert KeyOf(order, Bare(x)) == KeyOf(order, x) && KeyOf(order, Bare(s[n])) == KeyOf(order, s[n]);
      assert BareFiles(s)[..n] == BareFiles(s[..n]);
      InsertedIsBare(order, s[..n], x);
      if Before(KeyOf(order, x), KeyOf(order, s[n])) {
        assert (Inserted(order, s[..n], x) + [s[n]])[..|Inserted(order, s[..n], x)|] == Inserted(order, s[..n], x);
      } else {
        assert (s + [x])[..|s|] == s;
      }
    }
  }

  lemma {:induction false} SortedIsBare(order: seq<int>, files: seq<EpisodeFile>)
    ensures BareFiles(Sorted(order, files)) == Sorted(order, BareFiles(files))
  {
    if files != [] {
      var n := |files| - 1;
      SortedIsBare(order, files[..n]);
      InsertedIsBare(order, Sorted(order, files[..n]), files[n]);
      assert BareFiles(files)[..n] == BareFiles(files[..n]);
    }
  }

  lemma {:induction false} FirstUnwatchedIsBare(u: Urls, progress: map<string, Progress>, s: seq<EpisodeFile>)
    ensures FirstUnwatched(u, progress, BareFiles(s)) == FirstUnwatched(u, progress, s)
  {
    if s != [] {
      assert BareFiles(s)[1..] == BareFiles(s[1..]);
      FirstUnwatchedIsBare(u, progress, s[1..]);
    }
  }

  lemma SameEpisodesPlayTheSame(u: Urls, a: Media, b: Media, progress: map<string, Progress>)
    requires SameCard(a, b) && BareFiles(SortedEpisodes(a)) == BareFiles(SortedEpisodes(b))
    requires a.files != [] <==> b.files != []
    requires a.files != [] ==> !a.kind.Movie? && SortedEpisodes(a) != []
    requires a.files == [] ==> SortedEpisodes(a) == []
    ensures PlayTargetForItem(u, a, progress) == PlayTargetForItem(u, b, progress)
  {
    var s, t := SortedEpisodes(a), SortedEpisodes(b);
    SameLength(s, t);
    FirstUnwatchedIsBare(u, progress, s);
    FirstUnwatchedIsBare(u, progress, t);
    if s != [] {
      var n := FirstUnwatched(u, progress, s);
      assert Bare(s[if n < |s| then n else 0]) == Bare(t[if n < |s| then n else 0]);
    }
  }

  lemma RouteKeepsFiles(m: Media, revision: int)
    requires Plain(m)
    ensures SameCard(m, FromCard(CardOf(m), revision))
    ensures BareFiles(m.files) == BareFiles(FromCard(CardOf(m), revision).files)
  {
    var c := FromCard(CardOf(m), revision);
    if m.files != [] {
      FilesOfReferences(m.files);
      SameLength(m.files, c.files);
    } else {
      assert CardOf(m).references[1..] == [] && FilesOf([]) == [];
      assert c.files == [];
    }
  }

  lemma SameSortedEpisodes(a: Media, b: Media)
    requires BareFiles(a.files) == BareFiles(b.files) && a.infos == b.infos
    ensures BareFiles(SortedEpisodes(a)) == BareFiles(SortedEpisodes(b))
  {
    SameSeasonOrder(a, b);
    SortedIsBare(OrderedSeasons(a), a.files);
    SortedIsBare(OrderedSeasons(a), b.files);
  }

  /** One item: a movie without episode files, or a series with the files the legacy route gives it. */
  lemma RouteKeepsMeaning(m: Media, revision: int)
    requires Plain(m)
    ensures SameMeaning(m, FromCard(CardOf(m), revision))
  {
    var c := FromCard(CardOf(m), revision);
    RouteKeepsFiles(m, revision);
    SameLength(m.files, c.files);
    SameSortedEpisodes(m, c);
    SortedLength(OrderedSeasons(m), m.files);
    forall u, progress ensures PlayTargetForItem(u, m, progress) == PlayTargetForItem(u, c, progress) {
      SameEpisodesPlayTheSame(u, m, c, progress);
    }
  }

  lemma SortedLength(order: seq<int>, files: seq<EpisodeFile>)
    ensures |Sorted(order, files)| == |files|
  {
    SortIsStable(order, files);
    assert |multiset(Sorted(order, files))| == |multiset(files)|;
  }

  /** What the legacy route guarantees of every item. */
  predicate Plain(m: Media) {
    && (forall f :: f in m.files ==> f.mediaId == f.filePath && f.details.None?)
    && m.filePath == m.id && m.details.None? && m.infos == [] && (m.files != [] ==> !m.kind.Movie?)
  }

  lemma {:induction false} LegacyIsPlain(all: seq<Canonical>, items: seq<Canonical>, kind: Kind)
    ensures forall m :: m in Movies(items) ==> Plain(m)
    ensures !kind.Movie? ==> forall m :: m in Shows(all, items, kind) ==> Plain(m)
  {
    if items != [] { LegacyIsPlain(all, items[1..], kind); }
  }

  lemma RoutesAgreeOn(a: seq<Media>, revision: int)
    requires forall m :: m in a ==> Plain(m)
    ensures SameItems(a, FromCards(Cards(a), revision))
  {
    forall i | 0 <= i < |a| ensures SameMeaning(a[i], FromCards(Cards(a), revision)[i]) {
      assert a[i] in a;
      RouteKeepsMeaning(a[i], revision);
    }
  }

  lemma MoviesAgree(items: seq<Canonical>, revision: int)
    ensures SameItems(LegacyLibrary(items).movies, LibraryFromIndex(CompactIndex(items, revision)).movies)
  {
    LegacyIsPlain(items, items, Tv);
    RoutesAgreeOn(LegacyLibrary(items).movies, revision);
  }

  lemma TvShowsAgree(items: seq<Canonical>, revision: int)
    ensures SameItems(LegacyLibrary(items).tvShows, LibraryFromIndex(CompactIndex(items, revision)).tvShows)
  {
    LegacyIsPlain(items, items, Tv);
    RoutesAgreeOn(LegacyLibrary(items).tvShows, revision);
  }

  lemma AnimeShowsAgree(items: seq<Canonical>, revision: int)
    ensures SameItems(LegacyLibrary(items).animeShows, LibraryFromIndex(CompactIndex(items, revision)).animeShows)
  {
    LegacyIsPlain(items, items, Anime);
    RoutesAgreeOn(LegacyLibrary(items).animeShows, revision);
  }

  /**
   For all canonical items, both transports give the same items in the same order, the same episodes in playing
   order, and the same play targets for every progress map.
   */
  lemma TransportsAgree(items: seq<Canonical>, revision: int)
    ensures
      var legacy, compact := LegacyLibrary(items), LibraryFromIndex(CompactIndex(items, revision));
      && SameItems(legacy.movies, compact.movies)
      && SameItems(legacy.tvShows, compact.tvShows)
      && SameItems(legacy.animeShows, compact.animeShows)
      && legacy.others == compact.others == []
      && forall m :: m in compact.movies + compact.tvShows + compact.animeShows ==> m.revision == Some(revision)
  {
    MoviesAgree(items, revision);
    TvShowsAgree(items, revision);
    AnimeShowsAgree(items, revision);
  }
}
