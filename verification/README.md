# MusicKit lookup demo — a Dafny model

This project models the logic of a SwiftUI demo app for Apple Music. The app lets a user:

- search the catalogue for albums, songs and artists;
- tick results and resolve the ticked ids again, either through MusicKit (the "reverse search") or in one HTTP request to the Apple Music catalogue API;
- watch the system player;
- edit an application player queue.

The heart of the model is `AppleMusicHTTPClient`:

- the cached developer token, which lives for one hour;
- grouping the ticked ids by item type into `ids[albums]`, `ids[songs]` and `ids[artists]` query items, plus `include=artists,albums`;
- the bearer-token request;
- sorting every outcome of the URL session into one `HTTPAPIError` case;
- the human-readable texts for those errors.

Around it are the screens' state rules:

- the loading, result and error state of each search and lookup;
- selection toggling and the link that appears once something is ticked;
- the complete/partial indicator, the response time and which block is displayed;
- result sections grouped by type string and shown in sorted order;
- the player status tables and the `m:ss` time format;
- the queue edits and the 50-line operation log.

Modules follow the Swift files:

| Module | Swift file |
|---|---|
| `HttpClient` | `Screens/AppleMusicHTTPClient.swift` |
| `HttpReverseSearch` | `Screens/HTTPReverseSearchView.swift` |
| `ReverseSearch` | `Screens/ReverseSearchView.swift` |
| `MixedTypeSearch` | `Screens/MixedTypeSearchView.swift` and `Screens/SelectableMixedItemCell.swift` |
| `SearchWithSelection` | `Screens/SearchWithSelectionView.swift` and `Screens/SelectableAlbumCell.swift` |
| `PlayerObserver` | `Screens/SystemMusicPlayerObserverView.swift` |
| `PlayerQueue` | `Screens/PlayerQueueTestView.swift` |

Shared modules:

- `LookupRun`: the indicator, response time and display rules that both lookup screens use.
- `Text`: joining, splitting, decimal digits and lexicographic order on strings.
- `MusicKit`, `Palette`, `Wrappers` and `Sequences`: the MusicKit records, SwiftUI colours, `Option`/`Result`, and subsequence.

Everything the app gets from outside is a parameter:

- the token provider's answer;
- the storefront lookup;
- whether `URLComponents` produces a URL;
- the URL session's outcome;
- the JSON decoder's verdict;
- MusicKit search and lookup results;
- `prepareToPlay`'s outcome;
- a queue entry's `isTransient` flag;
- the clock.

Time is an integer number of milliseconds. `getDeveloperToken` reads the clock twice, once for the expiry check and once after the provider answers, so the model takes both readings (`now` and `issuedAt`). An asynchronous task is modelled as one sequential step from its start to its end.

Two behaviours of the code worth noting:

- **Storefront failure.** A failed storefront lookup is reported as `apiError(statusCode: 0, message: "ストアフロントの取得に失敗しました")`, not as an error case of its own (`HttpClient.FetchMixedResources`).
- **More items than ids.** The number of resolved items is not bounded by the number of requested ids. An id that occurs in the search results both as an album and as a song is requested under both parameters, and can come back twice (`HttpClient.SharedIdRequestsBoth`). The indicator tests only for equality, so such a run reads "partial".

## Model

| member | source | states |
|---|---|---|
| HttpClient.DescriptionRevealsKind | Screens/AppleMusicHTTPClient.swift:17-32 | every error's localized description starts with a text that identifies its case, whatever the payloads are, so the description alone tells which of the six cases occurred |
| HttpClient.LocalizedDescription | Screens/AppleMusicHTTPClient.swift:17-32 | each case's description: a fixed prefix followed by the payload's own description, the status code and message, or a fixed text for the two payload-free cases; MusicKit's description of a token error is a parameter |
| HttpClient.TokenErrorMessage | Screens/AppleMusicHTTPClient.swift:199-218 | every token failure, the unrecognised ones included, gets a non-empty guidance message |
| HttpClient.TokenErrorMessagesDistinct | Screens/AppleMusicHTTPClient.swift:199-218 | different token failures get different guidance messages |
| HttpClient.TokenErrorMessageIdentifies | Screens/AppleMusicHTTPClient.swift:199-218 | the token error can be read back from its guidance message |
| HttpClient.GetDeveloperToken | Screens/AppleMusicHTTPClient.swift:67-90 | the provider is asked exactly when no cached token with a future expiry exists; a usable cache is returned untouched; a new token is cached with an expiry one hour after it was issued; a MusicKit token error is passed on, any other provider failure becomes `tokenError(.unknown)`; a failure leaves the cache as it was |
| HttpClient.AtMostOneProviderCall | Screens/AppleMusicHTTPClient.swift:67-82 | after a successful call, any later call before the expiry is answered from the cache with the same token and without asking the provider |
| HttpClient.RefreshExtendsExpiry | Screens/AppleMusicHTTPClient.swift:68-80 | once the cached token has expired, the provider is asked again and the new expiry is later than the old one |
| HttpClient.Group | Screens/AppleMusicHTTPClient.swift:106 | a group holds exactly the search results of one type whose id is among the requested ids |
| HttpClient.GroupCounts | Screens/AppleMusicHTTPClient.swift:106 | a group keeps each matching search result exactly as many times as it occurs in the results, and no other result |
| HttpClient.IdsByType | Screens/AppleMusicHTTPClient.swift:106 | the grouping has no empty group; every member of a group is a requested result of that group's type; every requested result sits in the group of its type |
| HttpClient.IdsByTypeKeepsOrder | Screens/AppleMusicHTTPClient.swift:106 | each group keeps the search results' order |
| HttpClient.GroupIgnoresIdOrder | Screens/AppleMusicHTTPClient.swift:106 | the grouping depends only on which ids were requested, not on their order or repetition |
| HttpClient.QueryItems | Screens/AppleMusicHTTPClient.swift:113-137 | one query item per non-empty group, then the `include` item last |
| HttpClient.QueryItemsInOrder | Screens/AppleMusicHTTPClient.swift:113-132 | the `ids[type]` item of a non-empty group sits after those of the non-empty groups before it in the order albums, songs, artists, and carries that group's comma-joined ids; with the length and the last item this fixes the whole list |
| HttpClient.QueryRoundTrip | Screens/AppleMusicHTTPClient.swift:113-137 | the query has one item per non-empty group plus `include`; splitting a group's parameter value at commas gives back that group's ids in order; an empty or absent group has no parameter; `include` is `artists,albums` |
| HttpClient.LookupIdsParam | Screens/AppleMusicHTTPClient.swift:116-132 | the `ids[type]` parameter holds the comma-joined ids of that type's group exactly when the group is non-empty |
| HttpClient.LookupAlbumsParam | Screens/AppleMusicHTTPClient.swift:116-120 | `ids[albums]` holds the comma-joined album ids exactly when some ticked result is an album |
| HttpClient.LookupSongsParam | Screens/AppleMusicHTTPClient.swift:122-126 | `ids[songs]` holds the comma-joined song ids exactly when some ticked result is a song |
| HttpClient.LookupArtistsParam | Screens/AppleMusicHTTPClient.swift:128-132 | `ids[artists]` holds the comma-joined artist ids exactly when some ticked result is an artist |
| HttpClient.LookupInclude | Screens/AppleMusicHTTPClient.swift:135 | the query always asks to include artists and albums |
| HttpClient.ParamNamesDistinct | Screens/AppleMusicHTTPClient.swift:118-135 | the three ids parameter names differ from each other and from `include` |
| HttpClient.BuildRequest | Screens/AppleMusicHTTPClient.swift:108-148 | the request goes over https to `api.music.apple.com` at the storefront's catalogue path, its query is the grouping's query items, and it carries exactly two headers: the bearer token, then the JSON content type |
| HttpClient.RequestAsksForSelection | Screens/AppleMusicHTTPClient.swift:106-148 | the request built from a selection holds, under `ids[type]`, exactly the selected search results of that type comma-joined in search-result order, and no such item when none of that type is selected |
| HttpClient.SharedIdRequestsBoth | Screens/AppleMusicHTTPClient.swift:106-132 | one id that appears as both an album and a song is put in both groups |
| HttpClient.Classify | Screens/AppleMusicHTTPClient.swift:152-196 | a URL error becomes `networkError`; a non-HTTP response becomes `noDataReceived`; a non-200 status becomes `apiError` with the body text or "不明なエラー"; a 200 with an undecodable body becomes `decodingError`; any other thrown error becomes `apiError(0, "不明なエラー: …")`; success happens exactly for a 200 whose body decodes, and then the decoded response is returned |
| HttpClient.NonOkIgnoresDecoder | Screens/AppleMusicHTTPClient.swift:163-167 | for a non-200 status the body is never decoded: the outcome is the same whatever the decoder would say |
| HttpClient.FetchMixedResources | Screens/AppleMusicHTTPClient.swift:92-197 | the cache ends as the token step leaves it; a token failure stops everything before the storefront lookup; a missing storefront gives `apiError(0, "ストアフロントの取得に失敗しました")` and nothing is sent; a sent request is built from the grouping and the token, and its outcome is classified; success implies the request was sent |
| HttpClient.FetchInvalidUrl | Screens/AppleMusicHTTPClient.swift:139-142 | when a token and a storefront are at hand but no URL can be built, the call fails with `invalidURL` after the storefront lookup and sends nothing |
| HttpClient.FetchEffectsAre | Screens/AppleMusicHTTPClient.swift:92-153 | the steps a fetch takes, in order: the provider call when the cache cannot be used; then, once a token is at hand, the storefront lookup; then, when a URL could be built, the request |
| HttpClient.FetchCallsProviderIffStale | Screens/AppleMusicHTTPClient.swift:67-78 | a fetch asks the token provider exactly when there is no cached token with a future expiry |
| HttpClient.FetchSendsLast | Screens/AppleMusicHTTPClient.swift:96-153 | no step before the last one of a fetch is a sent request, so at most one request goes out and nothing follows it |
| HttpClient.SentRequestCarriesToken | Screens/AppleMusicHTTPClient.swift:96-147 | with a token at hand, a storefront found and a URL built, the request is sent, the client has a cached token and the request's authorization header carries it |
| HttpReverseSearch.Begin | Screens/HTTPReverseSearchView.swift:152-164 | with no ids nothing happens; otherwise the screen is loading, the previous items are cleared, the start time is now and the end time is unset |
| HttpReverseSearch.OpenedReady | Screens/HTTPReverseSearchView.swift:8-18 | a freshly opened screen is not loading, offers the execute button, shows no indicator and no alert, and a dash for the response time |
| HttpReverseSearch.ErrorMessageFor | Screens/HTTPReverseSearchView.swift:181-215 | a token failure shows its guidance message; another client error shows its localized description; any other error shows "HTTP API呼び出しに失敗しました: " plus its description |
| HttpReverseSearch.Finish | Screens/HTTPReverseSearchView.swift:166-216 | loading stops and the end time is set in every case; success replaces the items and leaves the alert alone; failure keeps the items and raises the alert with the chosen message; the selection, the search results, the client's cache and the start time are left alone |
| HttpReverseSearch.Run | Screens/HTTPReverseSearchView.swift:152-217 | a full run over a non-empty selection ends not loading, with both times set, the client's cache as the fetch left it, and the selection and search results unchanged; on success the fetched items are shown and the alert is left alone; on failure no items are shown and the alert carries the message chosen for the client's error |
| HttpReverseSearch.ShortResponseIsPartialNotError | Screens/HTTPReverseSearchView.swift:76-91 | a successful run that resolves fewer items than ids shows the partial indicator and raises no alert |
| HttpReverseSearch.TokenFailureShowsRemedy | Screens/HTTPReverseSearchView.swift:191-195 | when the token cannot be obtained, the alert shows the token guidance message and the cache is unchanged |
| HttpReverseSearch.OfTag | Screens/HTTPReverseSearchView.swift:28-30 | a section holds exactly the retrieved items with that type string |
| HttpReverseSearch.ItemsByTypePartition | Screens/HTTPReverseSearchView.swift:28-30 | every section is non-empty and keeps the response order; its items all carry its key; every retrieved item is in the section of its own type |
| HttpReverseSearch.ItemsByType | Screens/HTTPReverseSearchView.swift:28-30 | one entry per type string that occurs, holding that type's items in response order |
| HttpReverseSearch.SectionOrder | Screens/HTTPReverseSearchView.swift:108 | the section keys are shown in strictly increasing order, each key of the grouping once |
| HttpReverseSearch.SectionsCoverItems | Screens/HTTPReverseSearchView.swift:28-112 | the sections shown hold, together, exactly as many items as were retrieved |
| HttpReverseSearch.TypeDisplayName | Screens/HTTPReverseSearchView.swift:224-231 | a known type string is labelled with that type's display name, and any other string is shown as is |
| HttpReverseSearch.TypeColor | Screens/HTTPReverseSearchView.swift:233-240 | a known type string gets the same colour as the search screen's badge, and gray is used exactly for unknown strings |
| HttpReverseSearch.ExecuteButtonVisible | Screens/HTTPReverseSearchView.swift:130-137 | the execute button is shown while no run has started |
| HttpReverseSearch.ExecuteButtonOnlyBeforeRun | Screens/HTTPReverseSearchView.swift:130-164 | a run over a non-empty selection hides the execute button for good; a hidden button stays hidden; with nothing selected the button stays as it was |
| LookupRun.IndicatorOf | Screens/HTTPReverseSearchView.swift:76-91 | the indicator appears only after a run has started and finished; it reads complete exactly when the retrieved count equals the requested count, and partial otherwise |
| LookupRun.ResponseTimeOf | Screens/HTTPReverseSearchView.swift:20-26 | a response time is shown exactly when both times are known, and it is their difference; otherwise a dash |
| LookupRun.DisplayOf | Screens/HTTPReverseSearchView.swift:94-126 | the progress block shows exactly while loading, the results exactly when not loading and something was retrieved, and "nothing found" exactly when a finished run retrieved nothing |
| ReverseSearch.Begin | Screens/ReverseSearchView.swift:162-168 | with no ids nothing happens; otherwise the screen is loading with no albums, the start time is now and the end time is unset |
| ReverseSearch.OpenedReady | Screens/ReverseSearchView.swift:8-16 | a freshly opened screen offers the enabled execute button, shows no indicator and no alert, and a dash for the response time |
| ReverseSearch.Finish | Screens/ReverseSearchView.swift:170-188 | loading stops and the end time is set; success shows the albums; failure keeps the albums and raises the alert with "ID逆引きに失敗しました: " plus the description; success leaves the alert alone; the selected ids and the start time are never touched |
| ReverseSearch.RunOutcome | Screens/ReverseSearchView.swift:162-189 | after a run the response time is end minus start; a failed run shows no albums and the partial indicator; a successful run is complete exactly when as many albums as ids came back |
| ReverseSearch.WhileLoading | Screens/ReverseSearchView.swift:70-136 | while a run is loading there is no indicator, the response time is a dash and the progress block is shown |
| ReverseSearch.ExecuteButton | Screens/ReverseSearchView.swift:140-147 | the run button exists only before the first run and is enabled exactly when not loading |
| MixedTypeSearch.BadgeColor | Screens/SelectableMixedItemCell.swift:64-73 | every item type gets a badge colour other than gray |
| MixedTypeSearch.FromRawValue | Screens/MixedTypeSearchView.swift:9-21 | a string names a type exactly when it is that type's raw value |
| MixedTypeSearch.RawValueRoundTrip | Screens/MixedTypeSearchView.swift:9-21 | every type reads back from its raw value, is among all cases, and no two types share a raw value |
| MixedTypeSearch.FromAlbum | Screens/MixedTypeSearchView.swift:30-36 | an album becomes an album row with its id, title and artist name |
| MixedTypeSearch.FromSong | Screens/MixedTypeSearchView.swift:38-44 | a song becomes a song row with its id, title and artist name |
| MixedTypeSearch.FromArtist | Screens/MixedTypeSearchView.swift:46-52 | an artist becomes an artist row whose name also fills the artist column |
| MixedTypeSearch.Flatten | Screens/MixedTypeSearchView.swift:200-215 | the flattened results hold one row per album, song and artist, all albums before all songs before all artists |
| MixedTypeSearch.FlattenRegroups | Screens/MixedTypeSearchView.swift:200-215 | picking one type out of the flattened results gives back exactly that type's rows, in response order |
| MixedTypeSearch.FlattenKeepsAlbums | Screens/MixedTypeSearchView.swift:202-205 | the album rows of the flattened list are the response's albums, in order |
| MixedTypeSearch.FlattenKeepsSongs | Screens/MixedTypeSearchView.swift:207-210 | the song rows of the flattened list are the response's songs, in order |
| MixedTypeSearch.FlattenKeepsArtists | Screens/MixedTypeSearchView.swift:212-215 | the artist rows of the flattened list are the response's artists, in order |
| MixedTypeSearch.StartSearch | Screens/MixedTypeSearchView.swift:177-197 | an empty term does nothing; otherwise the results are cleared, loading starts, and one request for all three types with a limit of 10 is made |
| MixedTypeSearch.StartSearchKeepsSelection | Screens/MixedTypeSearchView.swift:183-186 | a new search keeps the ticked ids while clearing the results |
| MixedTypeSearch.FinishSearch | Screens/MixedTypeSearchView.swift:217-229 | loading stops and the selection is kept; success shows exactly the flattened response, one row per returned item; failure keeps the old rows and raises the alert with "検索に失敗しました: " plus the description |
| MixedTypeSearch.SearchButtonDisabled | Screens/MixedTypeSearchView.swift:74 | the search button is disabled exactly when pressing it would send no search (empty term) or a search is running |
| MixedTypeSearch.SetSelection | Screens/MixedTypeSearchView.swift:119-126 | the row callback puts the id in the selection exactly when asked to select it, and touches nothing else |
| MixedTypeSearch.Tap | Screens/SelectableMixedItemCell.swift:16 | tapping a row flips whether it is selected |
| MixedTypeSearch.TapTwice | Screens/SelectableMixedItemCell.swift:16 | tapping the same row twice restores the screen |
| MixedTypeSearch.SharedIdSelectedTogether | Screens/MixedTypeSearchView.swift:119-126 | rows that share an id are selected and deselected together |
| MixedTypeSearch.ClearSelection | Screens/MixedTypeSearchView.swift:84-86 | clearing deselects every row and changes nothing else: results, term, loading flag and alert stay |
| MixedTypeSearch.LookupLinkOf | Screens/MixedTypeSearchView.swift:140-148 | the lookup link exists exactly when something is ticked, and it carries the ticked ids and the current results |
| SearchWithSelection.StartSearch | Screens/SearchWithSelectionView.swift:109-121 | an empty term does nothing; otherwise the albums and the selection are cleared, searching starts, and one album search for the term with limit 25 is sent |
| SearchWithSelection.FinishSearch | Screens/SearchWithSelectionView.swift:122-133 | searching stops; success shows the albums; failure keeps them and raises the alert with "検索に失敗しました: " plus the description; success leaves the alert alone; the term and the selection are never touched |
| SearchWithSelection.Tap | Screens/SelectableAlbumCell.swift:16 | tapping an album flips its membership in the selection and changes nothing else |
| SearchWithSelection.SelectedAlbumsArray | Screens/SearchWithSelectionView.swift:16-18 | the selected albums are exactly the shown albums whose id is ticked |
| SearchWithSelection.SelectedAlbumsInOrder | Screens/SearchWithSelectionView.swift:16-18 | the selected albums keep the search order |
| SearchWithSelection.SelectedAlbumsCounts | Screens/SearchWithSelectionView.swift:16-18 | each album with a selected id is kept as many times as it occurs in the list, and no other album is kept |
| SearchWithSelection.SelectAllKeepsAll | Screens/SearchWithSelectionView.swift:16-18 | when every shown album is ticked, the selection array is the whole list |
| SearchWithSelection.LookupLinkIds | Screens/SearchWithSelectionView.swift:48-84 | the lookup link appears exactly when albums are shown and some album is ticked, and it passes the ticked ids |
| SearchWithSelection.SearchKeepsSelectionShown | Screens/SearchWithSelectionView.swift:109-128 | a search, started and then finished with either outcome, leaves every ticked id on an album on screen |
| SearchWithSelection.TapKeepsSelectionShown | Screens/SearchWithSelectionView.swift:60-70 | tapping a shown album's row keeps every ticked id on an album on screen |
| SearchWithSelection.LinkNeedsOnlySelection | Screens/SearchWithSelectionView.swift:48-84 | while every ticked id is on screen, the link shows exactly when some album is ticked |
| SearchWithSelection.NewSearchDropsLink | Screens/SearchWithSelectionView.swift:109-114 | starting a new search removes the lookup link and empties the selection array |
| PlayerObserver.StatusTablesDistinguish | Screens/SystemMusicPlayerObserverView.swift:160-193 | the status text and icon tables tell every pair of statuses apart; two colours coincide exactly for the two seeking directions |
| PlayerObserver.StatusText | Screens/SystemMusicPlayerObserverView.swift:160-170 | the status, the fallback included, can be read back from its text |
| PlayerQueue.PlaybackStatusText | Screens/PlayerQueueTestView.swift:267-277 | the queue screen's status label uses the observer screen's table, so every status, the fallback included, can be read back from it |
| PlayerObserver.StatusIcon | Screens/SystemMusicPlayerObserverView.swift:172-182 | the status, the fallback included, can be read back from its icon name |
| PlayerObserver.StatusColor | Screens/SystemMusicPlayerObserverView.swift:184-193 | gray is used for the fallback only, and blue for the two seeking directions only |
| PlayerObserver.PlaybackTimeVisible | Screens/SystemMusicPlayerObserverView.swift:72 | the playback time row is shown while playing or paused only |
| PlayerObserver.Decompose | Screens/SystemMusicPlayerObserverView.swift:197-202 | minutes times sixty plus seconds is the total, with Swift's truncating division: seconds lie in 0..59 for non-negative totals and carry the sign otherwise |
| PlayerObserver.FormatTime | Screens/SystemMusicPlayerObserverView.swift:197-202 | for a non-negative time the text has at least four characters and a colon before the last two |
| PlayerObserver.FormatTimeRoundTrip | Screens/SystemMusicPlayerObserverView.swift:197-202 | reading a formatted non-negative time back as minutes and two-digit seconds gives the whole number of seconds |
| PlayerObserver.StartTimer | Screens/SystemMusicPlayerObserverView.swift:204-214 | starting the timer records it and takes the playback time and the current entry |
| PlayerObserver.StopTimer | Screens/SystemMusicPlayerObserverView.swift:216-219 | stopping removes the timer and keeps the time and the entry |
| PlayerObserver.StopTimerIdempotent | Screens/SystemMusicPlayerObserverView.swift:216-219 | stopping twice is the same as stopping once |
| PlayerQueue.AddLog | Screens/PlayerQueueTestView.swift:482-494 | the new line comes first, the older lines follow in order, and the log never grows past 50 lines, dropping the oldest |
| PlayerQueue.AddLogsNewestFirst | Screens/PlayerQueueTestView.swift:482-494 | after several lines are written, the log starts with them in reverse order of writing |
| PlayerQueue.AddLogsSnoc | Screens/PlayerQueueTestView.swift:482-494 | writing one more line after several is the same as adding that line to the log they produced |
| PlayerQueue.AddLogsShift | Screens/PlayerQueueTestView.swift:482-494 | writing k lines moves an older line k places down while it stays within the cap |
| PlayerQueue.AddLogsAt | Screens/PlayerQueueTestView.swift:482-494 | after at most 50 lines are written, the line at position i is the one written i lines before the last |
| PlayerQueue.DisplayedLogs | Screens/PlayerQueueTestView.swift:241 | the screen shows the first ten lines of the log, or all of them if there are fewer |
| PlayerQueue.FirstAvailable | Screens/PlayerQueueTestView.swift:430-436 | the chosen track is not in the queue and every earlier album track is; no track is chosen only if every album track is queued |
| PlayerQueue.InsertTrack | Screens/PlayerQueueTestView.swift:426-453 | with fewer than three album tracks or an empty queue nothing changes; otherwise either the "no available track" line is logged, or the first unqueued track is inserted at index min(2, count) with the rest shifted, and the insert, length and (for a transient entry) two further lines are logged newest first |
| PlayerQueue.InsertTrackFrame | Screens/PlayerQueueTestView.swift:426-453 | inserting changes only the queue and the log: the album's tracks, the alert and the update counter are left alone |
| PlayerQueue.InsertedTrackIsNew | Screens/PlayerQueueTestView.swift:430-445 | an inserted entry plays an id the queue did not already hold; the queue stays the same length exactly when every album track is already queued |
| PlayerQueue.RemoveLastTwo | Screens/PlayerQueueTestView.swift:455-473 | with fewer than three entries nothing changes; otherwise the last two entries are removed, the first is kept, and "removed 2" and the remaining count are logged; nothing but the queue and the log changes |
| PlayerQueue.InitializeQueue | Screens/PlayerQueueTestView.swift:328-362 | with no tracks nothing happens; otherwise the queue holds the first min(5, n) tracks in order; on success the update counter goes up by one, the alert flag and message are left as they were, and the queued titles are the newest log line; on failure the alert shows "Failed to initialize queue: " plus the description and the counter is unchanged; the album's tracks never change |
| PlayerQueue.ClearQueue | Screens/PlayerQueueTestView.swift:475-478 | clearing empties the queue and logs one line, and changes nothing else |
| PlayerQueue.ButtonsMirrorGuards | Screens/PlayerQueueTestView.swift:426-453 | when the insert button is disabled, inserting does nothing; when it is enabled, inserting either grows the queue by one or logs why not; clearing an empty queue leaves it empty |
| PlayerQueue.InsertDisabled | Screens/PlayerQueueTestView.swift:203 | the insert button is disabled with fewer than three album tracks or an empty queue |
| PlayerQueue.RemoveDisabled | Screens/PlayerQueueTestView.swift:210 | the remove button is disabled with fewer than three queue entries |
| PlayerQueue.QueueEmpty | Screens/PlayerQueueTestView.swift:175-218 | the playback buttons and the clear button are disabled on an empty queue |
| PlayerQueue.RemoveButtonMatchesGuard | Screens/PlayerQueueTestView.swift:455-473 | the remove button is disabled exactly when removing would do nothing; when enabled, removing leaves two fewer entries and at least one |
| Text.SplitJoin | Screens/AppleMusicHTTPClient.swift:117 | splitting a comma-joined list of comma-free ids gives the list back |
| Text.ParseNatToString | Screens/SystemMusicPlayerObserverView.swift:197-202 | the decimal text of a number reads back as that number |
| Text.SortedDistinct | Screens/HTTPReverseSearchView.swift:108 | the sorted keys are strictly increasing and hold exactly the given keys |
| Text.Insert | Screens/HTTPReverseSearchView.swift:108 | inserting into a strictly increasing list keeps it strictly increasing and adds exactly the new key |
| Text.LessTotal | Screens/HTTPReverseSearchView.swift:108 | any two different strings are ordered one way or the other |

## Left out

- **I/O.** Network traffic, MusicKit calls and JSON decoding are outcome parameters. The model does not look inside the bytes, the JSON layout or the percent-encoding of the URL.
- **`URLComponents.url`.** Whether a URL can be built is a flag on the environment. It gives `invalidURL` when false.
- **Concurrency and actor hops.** `Task`, `MainActor.run` and the ordering of interleaved runs are modelled as one run at a time, each taken as one step from its start to its end.
- **Floating point and format strings.** The response time in milliseconds is an integer difference; `String(format: "%.0f ms")` is not modelled. The player time is an integer number of seconds; the `Int(timeInterval)` truncation of a fractional `TimeInterval` is not modelled.
- **Log text.** Log wording, the emoji and the timestamp format: log lines are a datatype with a formatted timestamp parameter.
- **Console output.** The `print` lines of the HTTP client carry no state.
- **Strings.** Swift `String` comparison uses Unicode canonical equivalence; the model compares character codes lexicographically. `HttpReverseSearch.SectionOrder` and `Text.Less` follow the model's order.
- **Layout.** Colours of counts, fonts, icons and other layout; `TypeSectionView`'s item rows; artwork URLs.
- **Player transport.** The playback controls of the queue screen (play/pause, skip forward and back) and its album search and track loading (`performSearch`, `loadAlbumTracks`) call into the player and MusicKit and only log what those calls answer; they are not modelled. Their buttons share the "queue is empty" guard, `PlayerQueue.QueueEmpty`.
- **System player observation.** `SystemMusicPlayer.shared.state` and the `Timer` are outside. `PlayerObserver.StartTimer` takes the timer id, the playback time and the current entry as parameters.
- **Other screens.** `ContentView`, `SearchTestView` and the share extension (`MusicAlbumsShare/`) are not part of this model.
- PlayerQueue.InitializeQueue: the queue is populated asynchronously by the player; the model assumes the entries exist right after assignment, so the "after prepare" count equals the number of queued tracks.
- PlayerQueue.InsertTrack: the contract states the first four log lines only as far as the insertion writes them; older lines follow by `PlayerQueue.AddLogsShift`.
- PlayerObserver.FormatTimeRoundTrip: proved for non-negative times only; a negative playback time formats with signs on both parts and does not read back.
