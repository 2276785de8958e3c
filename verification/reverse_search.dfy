/** The MusicKit album lookup screen: one `MusicCatalogResourceRequest` for
    the album ids selected on the album search screen. */
module ReverseSearch {

  import opened Wrappers
  import opened MusicKit
  import opened LookupRun

  datatype Screen = Screen(
    selectedAlbumIds: seq<string>,
    retrievedAlbums: seq<Album>,
    isLoading: bool,
    errorMessage: Option<string>,
    showError: bool,
    startTime: Option<Instant>,
    endTime: Option<Instant>)

  function Opened(ids: seq<string>): Screen {
    Screen(ids, [], false, None, false, None, None)
  }

  /** A freshly opened screen offers the enabled execute button and shows no
      indicator, no alert and a dash for the response time. */
  lemma OpenedReady(ids: seq<string>)
    ensures ExecuteButton(Opened(ids)) == Some(true)
    ensures IndicatorOfScreen(Opened(ids)).None? && !Opened(ids).showError
    ensures ResponseTimeOf(Opened(ids).startTime, Opened(ids).endTime) == Dash
  {
  }

  /** The synchronous part of `performReverseSearch`. */
  function Begin(s: Screen, now: Instant): (r: Screen)
    ensures |s.selectedAlbumIds| == 0 ==> r == s
    ensures |s.selectedAlbumIds| > 0 ==>
      r == s.(isLoading := true, retrievedAlbums := [], startTime := Some(now), endTime := None)
  {
    if |s.selectedAlbumIds| == 0 then s
    else s.(isLoading := true, retrievedAlbums := [], startTime := Some(now), endTime := None)
  }

  const LookupFailedPrefix: string := "ID逆引きに失敗しました: "

  /** The `Task`'s completion: the albums the request returned, or the error. */
  function Finish(s: Screen, outcome: Result<seq<Album>, string>, now: Instant): (r: Screen)
    ensures !r.isLoading && r.endTime == Some(now) && r.startTime == s.startTime
    ensures r == s.(endTime := r.endTime, retrievedAlbums := r.retrievedAlbums, isLoading := r.isLoading,
                    errorMessage := r.errorMessage, showError := r.showError)
    ensures outcome.Success? ==>
      r.retrievedAlbums == outcome.value && r.showError == s.showError && r.errorMessage == s.errorMessage
    ensures outcome.Failure? ==>
      r.retrievedAlbums == s.retrievedAlbums && r.showError
      && r.errorMessage == Some(LookupFailedPrefix + outcome.error)
  {
    match outcome
    case Success(albums) => s.(endTime := Some(now), retrievedAlbums := albums, isLoading := false)
    case Failure(description) =>
      s.(endTime := Some(now), errorMessage := Some(LookupFailedPrefix + description), showError := true, isLoading := false)
  }

  function IndicatorOfScreen(s: Screen): Option<Indicator> {
    IndicatorOf(s.isLoading, s.startTime, |s.retrievedAlbums|, |s.selectedAlbumIds|)
  }

  /** A started run that fails leaves no results and a partial indicator;
      one that succeeds is complete exactly when every id came back. */
  lemma RunOutcome(s: Screen, start: Instant, outcome: Result<seq<Album>, string>, end: Instant)
    requires |s.selectedAlbumIds| > 0
    ensures
      var r := Finish(Begin(s, start), outcome, end);
      && ResponseTimeOf(r.startTime, r.endTime) == Millis(end - start)
      && (outcome.Failure? ==> r.retrievedAlbums == [] && IndicatorOfScreen(r) == Some(Partial))
      && (outcome.Success? ==>
            (IndicatorOfScreen(r) == Some(Complete) <==> |outcome.value| == |s.selectedAlbumIds|))
  {
  }

  /** While the request is running no indicator is shown and the response
      time is a dash. */
  lemma WhileLoading(s: Screen, start: Instant)
    requires |s.selectedAlbumIds| > 0
    ensures IndicatorOfScreen(Begin(s, start)).None?
    ensures ResponseTimeOf(Begin(s, start).startTime, Begin(s, start).endTime) == Dash
    ensures DisplayOf(Begin(s, start).isLoading, |Begin(s, start).retrievedAlbums| > 0, Begin(s, start).startTime) == Loading
  {
  }

  /** The execute button shows only before the first run (and is disabled
      while loading). */
  function ExecuteButton(s: Screen): (r: Option<bool>)
    ensures r.Some? <==> s.startTime.None?
    ensures r.Some? ==> (r.value <==> !s.isLoading)
  {
    if s.startTime.None? then Some(!s.isLoading) else None
  }
}
