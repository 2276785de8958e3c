/** The mixed-type keyword search screen: one catalog search over albums,
    songs and artists, flattened into one tagged list, and a selection of
    result ids that is handed to the HTTP lookup screen. */
module MixedTypeSearch {

  import opened Wrappers
  import opened MusicKit
  import opened Palette

  /** The resource type tag of a search result. */
  datatype MixedItemType = Albums | Songs | Artists {

    /** The Swift raw value, which is also the catalog API's type name. */
    function RawValue(): string {
      match this
      case Albums => "albums"
      case Songs => "songs"
      case Artists => "artists"
    }

    function DisplayName(): string {
      match this
      case Albums => "アルバム"
      case Songs => "楽曲"
      case Artists => "アーティスト"
    }
  }

  /** The colour of a result row's type badge. */
  function BadgeColor(t: MixedItemType): (c: Color)
    ensures c != Gray
  {
    match t
    case Albums => Blue
    case Songs => Green
    case Artists => Orange
  }

  /** `MixedItemType.allCases`. */
  const AllTypes: seq<MixedItemType> := [Albums, Songs, Artists]

  /** The position of a type in `AllTypes`. */
  function TypeIndex(t: MixedItemType): (i: nat)
    ensures i < |AllTypes| && AllTypes[i] == t
  {
    match t
    case Albums => 0
    case Songs => 1
    case Artists => 2
  }

  /** Swift's `MixedItemType(rawValue:)`. */
  function FromRawValue(raw: string): (r: Option<MixedItemType>)
    ensures r.Some? ==> r.value.RawValue() == raw
    ensures r.None? ==> forall t: MixedItemType :: t.RawValue() != raw
  {
    if raw == "albums" then Some(Albums)
    else if raw == "songs" then Some(Songs)
    else if raw == "artists" then Some(Artists)
    else None
  }

  /** Every case is listed once in `AllTypes`, and its raw value reads back
      as that case, so the raw values are pairwise distinct. */
  lemma RawValueRoundTrip(t: MixedItemType)
    ensures FromRawValue(t.RawValue()) == Some(t)
    ensures t in AllTypes
    ensures forall u: MixedItemType :: u != t ==> u.RawValue() != t.RawValue()
  {
  }

  /** One row of the result list. */
  datatype MixedSearchResult = MixedSearchResult(
    id: string,
    name: string,
    artistName: string,
    itemType: MixedItemType,
    musicItemId: Option<string>)

  function FromAlbum(album: Album): (r: MixedSearchResult)
    ensures r.itemType == Albums && r.id == album.id && r.musicItemId == Some(album.id)
    ensures r.name == album.title && r.artistName == album.artistName
  {
    MixedSearchResult(album.id, album.title, album.artistName, Albums, Some(album.id))
  }

  function FromSong(song: Song): (r: MixedSearchResult)
    ensures r.itemType == Songs && r.id == song.id && r.musicItemId == Some(song.id)
    ensures r.name == song.title && r.artistName == song.artistName
  {
    MixedSearchResult(song.id, song.title, song.artistName, Songs, Some(song.id))
  }

  /** An artist has no separate artist name: its own name is shown twice. */
  function FromArtist(artist: Artist): (r: MixedSearchResult)
    ensures r.itemType == Artists && r.id == artist.id && r.musicItemId == Some(artist.id)
    ensures r.name == artist.name && r.artistName == r.name
  {
    MixedSearchResult(artist.id, artist.name, artist.name, Artists, Some(artist.id))
  }

  function MapAlbums(albums: seq<Album>): (r: seq<MixedSearchResult>)
    ensures |r| == |albums|
    ensures forall i :: 0 <= i < |r| ==> r[i] == FromAlbum(albums[i])
  {
    if |albums| == 0 then [] else [FromAlbum(albums[0])] + MapAlbums(albums[1..])
  }

  function MapSongs(songs: seq<Song>): (r: seq<MixedSearchResult>)
    ensures |r| == |songs|
    ensures forall i :: 0 <= i < |r| ==> r[i] == FromSong(songs[i])
  {
    if |songs| == 0 then [] else [FromSong(songs[0])] + MapSongs(songs[1..])
  }

  function MapArtists(artists: seq<Artist>): (r: seq<MixedSearchResult>)
    ensures |r| == |artists|
    ensures forall i :: 0 <= i < |r| ==> r[i] == FromArtist(artists[i])
  {
    if |artists| == 0 then [] else [FromArtist(artists[0])] + MapArtists(artists[1..])
  }

  /** The result list built from one search response: albums, then songs,
      then artists, each in the order the catalog returned them. */
  function Flatten(response: SearchResponse): (r: seq<MixedSearchResult>)
    ensures |r| == |response.albums| + |response.songs| + |response.artists|
    ensures forall i, j :: 0 <= i < j < |r| ==> TypeIndex(r[i].itemType) <= TypeIndex(r[j].itemType)
  {
    MapAlbums(response.albums) + MapSongs(response.songs) + MapArtists(response.artists)
  }

  /** The results carrying tag `t`, in list order. The lookup screen has a
      filter of the same shape over decoded records and their type string,
      `HttpReverseSearch.OfTag`; the two work on different record types. */
  function OfType(results: seq<MixedSearchResult>, t: MixedItemType): (r: seq<MixedSearchResult>)
    ensures |r| <= |results|
    ensures forall x :: x in r ==> x in results && x.itemType == t
    ensures forall x :: x in results && x.itemType == t ==> x in r
  {
    if |results| == 0 then []
    else if results[0].itemType == t then [results[0]] + OfType(results[1..], t)
    else OfType(results[1..], t)
  }

  lemma {:induction false} OfTypeAppend(a: seq<MixedSearchResult>, b: seq<MixedSearchResult>, t: MixedItemType)
    ensures OfType(a + b, t) == OfType(a, t) + OfType(b, t)
  {
    if |a| > 0 {
      assert (a + b)[1..] == a[1..] + b;
      OfTypeAppend(a[1..], b, t);
    } else {
      assert a + b == b;
    }
  }

  lemma {:induction false} OfTypeAll(xs: seq<MixedSearchResult>, t: MixedItemType)
    requires forall i :: 0 <= i < |xs| ==> xs[i].itemType == t
    ensures OfType(xs, t) == xs
  {
    if |xs| > 0 {
      OfTypeAll(xs[1..], t);
    }
  }

  lemma {:induction false} OfTypeNone(xs: seq<MixedSearchResult>, t: MixedItemType)
    requires forall i :: 0 <= i < |xs| ==> xs[i].itemType != t
    ensures OfType(xs, t) == []
  {
    if |xs| > 0 {
      OfTypeNone(xs[1..], t);
    }
  }

  /** Flattening loses nothing and mixes nothing: picking one tag out of the
      flattened list gives back exactly that type's response list, in order. */
  lemma FlattenRegroups(response: SearchResponse)
    ensures OfType(Flatten(response), Albums) == MapAlbums(response.albums)
    ensures OfType(Flatten(response), Songs) == MapSongs(response.songs)
    ensures OfType(Flatten(response), Artists) == MapArtists(response.artists)
  {
    FlattenKeepsAlbums(response);
    FlattenKeepsSongs(response);
    FlattenKeepsArtists(response);
  }

  lemma FlattenKeepsAlbums(response: SearchResponse)
    ensures OfType(Flatten(response), Albums) == MapAlbums(response.albums)
  {
    var a, s, r := MapAlbums(response.albums), MapSongs(response.songs), MapArtists(response.artists);
    assert Flatten(response) == a + (s + r);
    OfTypeAppend(a, s + r, Albums);
    OfTypeAppend(s, r, Albums);
    OfTypeAll(a, Albums);
    OfTypeNone(s, Albums);
    OfTypeNone(r, Albums);
  }

  lemma FlattenKeepsSongs(response: SearchResponse)
    ensures OfType(Flatten(response), Songs) == MapSongs(response.songs)
  {
    var a, s, r := MapAlbums(response.albums), MapSongs(response.songs), MapArtists(response.artists);
    assert Flatten(response) == a + (s + r);
    OfTypeAppend(a, s + r, Songs);
    OfTypeAppend(s, r, Songs);
    OfTypeNone(a, Songs);
    OfTypeAll(s, Songs);
    OfTypeNone(r, Songs);
  }

  lemma FlattenKeepsArtists(response: SearchResponse)
    ensures OfType(Flatten(response), Artists) == MapArtists(response.artists)
  {
    var a, s, r := MapAlbums(response.albums), MapSongs(response.songs), MapArtists(response.artists);
    assert Flatten(response) == (a + s) + r;
    OfTypeAppend(a + s, r, Artists);
    OfTypeAppend(a, s, Artists);
    OfTypeNone(a, Artists);
    OfTypeNone(s, Artists);
    OfTypeAll(r, Artists);
  }


  // -----------------------------------------------------------------------
  // Screen state

  /** The per-type cap of the keyword search. */
  const SearchLimit: nat := 10

  /** The catalog search the screen sends. */
  datatype SearchRequest = SearchRequest(term: string, types: seq<MixedItemType>, limit: nat)

  datatype SearchScreen = SearchScreen(
    searchTerm: string,
    results: seq<MixedSearchResult>,
    selected: set<string>,
    isLoading: bool,
    errorMessage: Option<string>,
    showError: bool)

  /** What tapping the search button does before the response arrives: the
      updated screen and the search sent, if any. */
  datatype SearchStart = SearchStart(screen: SearchScreen, request: Option<SearchRequest>)

  function StartSearch(s: SearchScreen): (r: SearchStart)
    ensures r.request.None? <==> s.searchTerm == ""
    ensures r.request.None? ==> r.screen == s
    ensures r.request.Some? ==>
      && r.request.value == SearchRequest(s.searchTerm, AllTypes, SearchLimit)
      && r.screen == s.(results := [], isLoading := true)
  {
    if s.searchTerm == "" then SearchStart(s, None)
    else SearchStart(s.(isLoading := true, results := []), Some(SearchRequest(s.searchTerm, [Albums, Songs, Artists], SearchLimit)))
  }

  /** A new search clears the old results but keeps the selection. */
  lemma StartSearchKeepsSelection(s: SearchScreen)
    requires s.searchTerm != ""
    ensures StartSearch(s).screen.selected == s.selected
    ensures StartSearch(s).screen.results == []
  {
  }

  const SearchFailedPrefix: string := "検索に失敗しました: "

  /** Applies the search outcome: the flattened results, or the error text. */
  function FinishSearch(s: SearchScreen, outcome: Result<SearchResponse, string>): (r: SearchScreen)
    ensures !r.isLoading
    ensures r.selected == s.selected && r.searchTerm == s.searchTerm
    ensures outcome.Success? ==> r.results == Flatten(outcome.value)
    ensures outcome.Success? ==> |r.results| == |outcome.value.albums| + |outcome.value.songs| + |outcome.value.artists|
    ensures outcome.Success? ==> r.errorMessage == s.errorMessage && r.showError == s.showError
    ensures outcome.Failure? ==>
      r.results == s.results && r.showError && r.errorMessage == Some(SearchFailedPrefix + outcome.error)
  {
    match outcome
    case Success(response) => s.(results := Flatten(response), isLoading := false)
    case Failure(description) =>
      s.(errorMessage := Some(SearchFailedPrefix + description), showError := true, isLoading := false)
  }

  /** The search button is enabled only when a search would be sent and none
      is running. */
  function SearchButtonDisabled(s: SearchScreen): (r: bool)
    ensures r <==> StartSearch(s).request.None? || s.isLoading
  {
    s.searchTerm == "" || s.isLoading
  }

  /** The checkbox state of a result row: membership of its id. */
  predicate IsSelected(s: SearchScreen, item: MixedSearchResult) {
    item.id in s.selected
  }

  /** The row callback: insert the id when asked to select, remove it
      otherwise. */
  function SetSelection(s: SearchScreen, id: string, isSelected: bool): (r: SearchScreen)
    ensures isSelected <==> id in r.selected
    ensures forall other :: other != id ==> (other in r.selected <==> other in s.selected)
    ensures r == s.(selected := r.selected)
  {
    if isSelected then s.(selected := s.selected + {id}) else s.(selected := s.selected - {id})
  }

  /** A tap on a row: the cell passes the negation of its current state. */
  function Tap(s: SearchScreen, item: MixedSearchResult): (r: SearchScreen)
    ensures IsSelected(r, item) <==> !IsSelected(s, item)
  {
    SetSelection(s, item.id, !IsSelected(s, item))
  }

  /** Tapping a row twice restores the selection. */
  lemma TapTwice(s: SearchScreen, item: MixedSearchResult)
    ensures Tap(Tap(s, item), item) == s
  {
    var t := Tap(Tap(s, item), item);
    assert t.selected == s.selected;
  }

  /** Selection is by id string alone: two results of different types that
      share an id are checked and unchecked together. */
  lemma SharedIdSelectedTogether(s: SearchScreen, a: MixedSearchResult, b: MixedSearchResult)
    requires a.id == b.id
    ensures IsSelected(Tap(s, a), b) == IsSelected(Tap(s, a), a)
    ensures IsSelected(Tap(s, a), b) != IsSelected(s, b)
  {
  }

  /** The clear button. */
  function ClearSelection(s: SearchScreen): (r: SearchScreen)
    ensures forall item :: !IsSelected(r, item)
    ensures r == s.(selected := r.selected)
  {
    s.(selected := {})
  }

  /** The navigation link to the HTTP lookup screen: the selected ids and the
      current result list. */
  datatype LookupLink = LookupLink(ids: set<string>, results: seq<MixedSearchResult>)

  function LookupLinkOf(s: SearchScreen): (r: Option<LookupLink>)
    ensures r.Some? <==> |s.selected| > 0
    ensures r.Some? ==> r.value.ids == s.selected && r.value.results == s.results
  {
    if s.selected == {} then None else Some(LookupLink(s.selected, s.results))
  }
}
