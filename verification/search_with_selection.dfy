/** The album search screen with checkboxes, whose selection feeds the
    MusicKit album lookup screen. */
module SearchWithSelection {

  import opened Wrappers
  import opened MusicKit
  import opened Sequences

  /** The per-search result cap. */
  const SearchLimit: nat := 25

  datatype Screen = Screen(
    searchTerm: string,
    albums: seq<Album>,
    isSearching: bool,
    errorMessage: Option<string>,
    showError: bool,
    selectedAlbums: set<string>)

  /** The album-only catalog search the screen sends. */
  datatype AlbumSearch = AlbumSearch(term: string, limit: nat)

  /** `performSearch` up to its `Task`, and the search sent, if any. */
  datatype SearchStart = SearchStart(screen: Screen, request: Option<AlbumSearch>)

  function StartSearch(s: Screen): (r: SearchStart)
    ensures r.request.None? <==> s.searchTerm == ""
    ensures r.request.None? ==> r.screen == s
    ensures r.request.Some? ==>
      r.request.value == AlbumSearch(s.searchTerm, SearchLimit)
      && r.screen == s.(isSearching := true, albums := [], selectedAlbums := {})
  {
    if s.searchTerm == "" then SearchStart(s, None)
    else SearchStart(s.(isSearching := true, albums := [], selectedAlbums := {}), Some(AlbumSearch(s.searchTerm, SearchLimit)))
  }

  const SearchFailedPrefix: string := "検索に失敗しました: "

  function FinishSearch(s: Screen, outcome: Result<seq<Album>, string>): (r: Screen)
    ensures !r.isSearching && r.selectedAlbums == s.selectedAlbums
    ensures r == s.(albums := r.albums, isSearching := r.isSearching,
                    errorMessage := r.errorMessage, showError := r.showError)
    ensures outcome.Success? ==>
      r.albums == outcome.value && r.errorMessage == s.errorMessage && r.showError == s.showError
    ensures outcome.Failure? ==>
      r.albums == s.albums && r.showError && r.errorMessage == Some(SearchFailedPrefix + outcome.error)
  {
    match outcome
    case Success(albums) => s.(albums := albums, isSearching := false)
    case Failure(description) =>
      s.(errorMessage := Some(SearchFailedPrefix + description), showError := true, isSearching := false)
  }

  /** The row callback followed by a tap: the cell passes the negation of
      its current state, so only that album's id flips. */
  function Tap(s: Screen, album: Album): (r: Screen)
    ensures album.id in r.selectedAlbums <==> album.id !in s.selectedAlbums
    ensures forall id :: id != album.id ==> (id in r.selectedAlbums <==> id in s.selectedAlbums)
    ensures r == s.(selectedAlbums := r.selectedAlbums)
  {
    var isSelected := !(album.id in s.selectedAlbums);
    if isSelected then s.(selectedAlbums := s.selectedAlbums + {album.id})
    else s.(selectedAlbums := s.selectedAlbums - {album.id})
  }

  /** `selectedAlbumsArray`: the albums whose id is selected, in search
      order. */
  function SelectedAlbumsArray(albums: seq<Album>, selected: set<string>): (r: seq<Album>)
    ensures |r| <= |albums|
    ensures forall a :: a in r <==> a in albums && a.id in selected
  {
    if |albums| == 0 then []
    else if albums[0].id in selected then [albums[0]] + SelectedAlbumsArray(albums[1..], selected)
    else SelectedAlbumsArray(albums[1..], selected)
  }

  /** Each selected album is kept as often as it occurs in the list, and no
      other album is kept. */
  lemma {:induction false} SelectedAlbumsCounts(albums: seq<Album>, selected: set<string>)
    ensures forall a :: multiset(SelectedAlbumsArray(albums, selected))[a] == (if a.id in selected then multiset(albums)[a] else 0)
  {
    if |albums| > 0 {
      SelectedAlbumsCounts(albums[1..], selected);
      assert albums == [albums[0]] + albums[1..];
    }
  }

  lemma {:induction false} SelectedAlbumsInOrder(albums: seq<Album>, selected: set<string>)
    ensures IsSubsequence(SelectedAlbumsArray(albums, selected), albums)
  {
    if |albums| > 0 {
      SelectedAlbumsInOrder(albums[1..], selected);
      if albums[0].id in selected {
        assert SelectedAlbumsArray(albums, selected)[1..] == SelectedAlbumsArray(albums[1..], selected);
      }
    }
  }

  /** Selecting every album gives back the whole list. */
  lemma {:induction false} SelectAllKeepsAll(albums: seq<Album>, selected: set<string>)
    requires forall i :: 0 <= i < |albums| ==> albums[i].id in selected
    ensures SelectedAlbumsArray(albums, selected) == albums
  {
    if |albums| > 0 {
      SelectAllKeepsAll(albums[1..], selected);
      assert [albums[0]] + albums[1..] == albums;
    }
  }

  /** The link to the lookup screen: it sits inside the result list's block,
      so it needs albums on screen as well as a non-empty selection, and it
      carries every selected id. */
  function LookupLinkIds(s: Screen): (r: Option<set<string>>)
    ensures r.Some? <==> |s.albums| > 0 && |s.selectedAlbums| > 0
    ensures r.Some? ==> r.value == s.selectedAlbums
  {
    if |s.albums| == 0 || s.selectedAlbums == {} then None else Some(s.selectedAlbums)
  }

  /** Every ticked id belongs to an album on screen: rows exist only for the
      albums shown, and a new search clears the selection with the list. */
  predicate SelectionShown(s: Screen) {
    forall id :: id in s.selectedAlbums ==> exists a :: a in s.albums && a.id == id
  }

  /** A search, started and then finished either way, leaves no ticked id. */
  lemma SearchKeepsSelectionShown(s: Screen, outcome: Result<seq<Album>, string>)
    requires s.searchTerm != ""
    ensures SelectionShown(StartSearch(s).screen)
    ensures SelectionShown(FinishSearch(StartSearch(s).screen, outcome))
  {
  }

  /** Tapping a shown album keeps every ticked id on screen. */
  lemma TapKeepsSelectionShown(s: Screen, album: Album)
    requires SelectionShown(s) && album in s.albums
    ensures SelectionShown(Tap(s, album))
  {
  }

  /** While the ticked ids are on screen, the list guard around the link adds
      nothing: the link shows exactly when some album is ticked. */
  lemma LinkNeedsOnlySelection(s: Screen)
    requires SelectionShown(s)
    ensures LookupLinkIds(s).Some? <==> |s.selectedAlbums| > 0
  {
    if |s.selectedAlbums| > 0 {
      var id :| id in s.selectedAlbums;
      var a :| a in s.albums && a.id == id;
    }
  }

  /** A new search drops the selection, so no link is offered until an album
      of the new results is ticked. */
  lemma NewSearchDropsLink(s: Screen)
    requires s.searchTerm != ""
    ensures LookupLinkIds(StartSearch(s).screen).None?
    ensures SelectedAlbumsArray(StartSearch(s).screen.albums, StartSearch(s).screen.selectedAlbums) == []
  {
  }
}
