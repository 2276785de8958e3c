/** The HTTP batch lookup screen: one `fetchMixedResources` run for the ids
    selected on the mixed search screen, its loading/result/error states,
    and the per-type sections of what came back. */
module HttpReverseSearch {

  import opened Wrappers
  import opened MusicKit
  import opened Palette
  import opened Text
  import opened MixedTypeSearch
  import opened HttpClient
  import opened LookupRun
  import opened Sequences

  datatype Screen = Screen(
    selectedItemIds: seq<string>,
    searchResults: seq<MixedSearchResult>,
    cache: TokenCache,
    retrieved: seq<ResourceItem>,
    isLoading: bool,
    errorMessage: Option<string>,
    showError: bool,
    startTime: Option<Instant>,
    endTime: Option<Instant>)

  /** The screen as the navigation link opens it, with a fresh client. */
  function Opened(ids: seq<string>, results: seq<MixedSearchResult>): Screen {
    Screen(ids, results, EmptyCache, [], false, None, false, None, None)
  }

  /** A freshly opened screen offers the enabled execute button, shows no
      indicator, no alert and a dash for the response time. */
  lemma OpenedReady(ids: seq<string>, results: seq<MixedSearchResult>)
    ensures ExecuteButtonVisible(Opened(ids, results)) && !Opened(ids, results).isLoading
    ensures IndicatorOfScreen(Opened(ids, results)).None? && !Opened(ids, results).showError
    ensures ResponseTimeOf(Opened(ids, results).startTime, Opened(ids, results).endTime) == Dash
  {
  }

  /** The synchronous part of `performHTTPReverseSearch`, up to its `Task`. */
  function Begin(s: Screen, now: Instant): (r: Screen)
    ensures |s.selectedItemIds| == 0 ==> r == s
    ensures |s.selectedItemIds| > 0 ==>
      r == s.(isLoading := true, retrieved := [], startTime := Some(now), endTime := None)
  {
    if |s.selectedItemIds| == 0 then s
    else s.(isLoading := true, retrieved := [], startTime := Some(now), endTime := None)
  }

  /** An error reaching the `Task`'s `catch` clauses. */
  datatype ViewError = HttpFailure(error: HttpApiError) | OtherError(description: string)

  const CallFailedPrefix: string := "HTTP API呼び出しに失敗しました: "

  /** The alert text for an error: remediation text for token errors, the
      error's own description for other client errors, and a prefixed
      description for anything else. */
  function ErrorMessageFor(e: ViewError, tokenDescription: TokenRequestError -> string): (m: string)
    ensures e.HttpFailure? && e.error.TokenError? ==> m == TokenErrorMessage(e.error.reason)
    ensures e.HttpFailure? && !e.error.TokenError? ==> m == LocalizedDescription(e.error, tokenDescription)
    ensures e.OtherError? ==> m == CallFailedPrefix + e.description
  {
    match e
    case HttpFailure(TokenError(reason)) => TokenErrorMessage(reason)
    case HttpFailure(other) => LocalizedDescription(other, tokenDescription)
    case OtherError(description) => CallFailedPrefix + description
  }

  /** The `Task`'s completion on the main actor. */
  function Finish(s: Screen, outcome: Result<MixedResourceResponse, ViewError>, now: Instant,
                  tokenDescription: TokenRequestError -> string): (r: Screen)
    ensures !r.isLoading && r.endTime == Some(now) && r.startTime == s.startTime
    ensures r == s.(endTime := r.endTime, retrieved := r.retrieved, isLoading := r.isLoading,
                    errorMessage := r.errorMessage, showError := r.showError)
    ensures outcome.Success? ==>
      r.retrieved == outcome.value.data && r.errorMessage == s.errorMessage && r.showError == s.showError
    ensures outcome.Failure? ==>
      r.retrieved == s.retrieved && r.showError
      && r.errorMessage == Some(ErrorMessageFor(outcome.error, tokenDescription))
  {
    match outcome
    case Success(response) => s.(endTime := Some(now), retrieved := response.data, isLoading := false)
    case Failure(e) =>
      s.(endTime := Some(now), errorMessage := Some(ErrorMessageFor(e, tokenDescription)), showError := true, isLoading := false)
  }

  function AsViewResult(r: Result<MixedResourceResponse, HttpApiError>): Result<MixedResourceResponse, ViewError> {
    match r
    case Success(v) => Success(v)
    case Failure(e) => Failure(HttpFailure(e))
  }

  /** A whole run taken as one sequential step: begin at `startedAt`, fetch
      with the screen's client, and finish at `finishedAt`. */
  function Run(s: Screen, startedAt: Instant, env: Environment, finishedAt: Instant,
               tokenDescription: TokenRequestError -> string): (r: Screen)
    ensures |s.selectedItemIds| == 0 ==> r == s
    ensures |s.selectedItemIds| > 0 ==>
      var f := FetchMixedResources(s.selectedItemIds, s.searchResults, s.cache, env);
      && !r.isLoading && r.startTime == Some(startedAt) && r.endTime == Some(finishedAt)
      && r.cache == f.cache
      && r.selectedItemIds == s.selectedItemIds && r.searchResults == s.searchResults
      && (f.result.Success? ==>
            r.retrieved == f.result.value.data && r.errorMessage == s.errorMessage && r.showError == s.showError)
      && (f.result.Failure? ==>
            && r.retrieved == [] && r.showError
            && r.errorMessage == Some(ErrorMessageFor(HttpFailure(f.result.error), tokenDescription)))
  {
    if |s.selectedItemIds| == 0 then s
    else
      var f := FetchMixedResources(s.selectedItemIds, s.searchResults, s.cache, env);
      Finish(Begin(s, startedAt).(cache := f.cache), AsViewResult(f.result), finishedAt, tokenDescription)
  }

  /** The counters' indicator on this screen. */
  function IndicatorOfScreen(s: Screen): Option<Indicator> {
    IndicatorOf(s.isLoading, s.startTime, |s.retrieved|, |s.selectedItemIds|)
  }

  /** A run that resolves fewer ids than were selected is a success, not an
      error: the indicator reads partial and no alert is raised. */
  lemma ShortResponseIsPartialNotError(s: Screen, startedAt: Instant, env: Environment, finishedAt: Instant,
                                       tokenDescription: TokenRequestError -> string)
    requires !s.showError
    requires |s.selectedItemIds| > 0
    requires FetchMixedResources(s.selectedItemIds, s.searchResults, s.cache, env).result.Success?
    requires |FetchMixedResources(s.selectedItemIds, s.searchResults, s.cache, env).result.value.data| < |s.selectedItemIds|
    ensures IndicatorOfScreen(Run(s, startedAt, env, finishedAt, tokenDescription)) == Some(Partial)
    ensures !Run(s, startedAt, env, finishedAt, tokenDescription).showError
  {
  }

  /** A token failure is shown with its remediation text. */
  lemma TokenFailureShowsRemedy(s: Screen, startedAt: Instant, env: Environment, finishedAt: Instant,
                                tokenDescription: TokenRequestError -> string, reason: TokenRequestError)
    requires |s.selectedItemIds| > 0
    requires !CacheUsable(s.cache, env.now) && env.provider == TokenRequestFailed(reason)
    ensures Run(s, startedAt, env, finishedAt, tokenDescription).errorMessage == Some(TokenErrorMessage(reason))
    ensures Run(s, startedAt, env, finishedAt, tokenDescription).cache == s.cache
  {
    var step := GetDeveloperToken(s.cache, env.now, env.issuedAt, env.provider);
    assert step.token == Failure(TokenError(reason)) && step.cache == s.cache;
    var f := FetchMixedResources(s.selectedItemIds, s.searchResults, s.cache, env);
    assert f.result == Failure(TokenError(reason));
  }

  // -----------------------------------------------------------------------
  // Sections by type

  /** The retrieved items whose type field is `tag`, in response order. */
  function OfTag(items: seq<ResourceItem>, tag: string): (r: seq<ResourceItem>)
    ensures |r| <= |items|
    ensures forall x :: x in r ==> x in items && x.itemType == tag
    ensures forall x :: x in items && x.itemType == tag ==> x in r
  {
    if |items| == 0 then []
    else if items[0].itemType == tag then [items[0]] + OfTag(items[1..], tag)
    else OfTag(items[1..], tag)
  }

  function TagsOf(items: seq<ResourceItem>): (r: seq<string>)
    ensures |r| == |items|
    ensures forall i :: 0 <= i < |r| ==> r[i] == items[i].itemType
  {
    if |items| == 0 then [] else [items[0].itemType] + TagsOf(items[1..])
  }

  /** `itemsByType`: `Dictionary(grouping: retrievedItems, by: { $0.type })`. */
  function ItemsByType(items: seq<ResourceItem>): map<string, seq<ResourceItem>> {
    map tag | tag in TagsOf(items) :: OfTag(items, tag)
  }

  lemma {:induction false} OfTagKeepsOrder(items: seq<ResourceItem>, tag: string)
    ensures IsSubsequence(OfTag(items, tag), items)
  {
    if |items| > 0 {
      OfTagKeepsOrder(items[1..], tag);
      if items[0].itemType == tag {
        assert OfTag(items, tag)[1..] == OfTag(items[1..], tag);
      }
    }
  }

  /** `itemsByType` partitions the retrieved items: every item sits in the
      group of its own type, groups are non-empty and keep response order. */
  lemma ItemsByTypePartition(items: seq<ResourceItem>)
    ensures forall tag :: tag in ItemsByType(items) ==>
      |ItemsByType(items)[tag]| > 0 && IsSubsequence(ItemsByType(items)[tag], items)
    ensures forall tag, x :: tag in ItemsByType(items) && x in ItemsByType(items)[tag] ==> x.itemType == tag
    ensures forall x :: x in items ==> x.itemType in ItemsByType(items) && x in ItemsByType(items)[x.itemType]
  {
    var m := ItemsByType(items);
    forall tag | tag in m
      ensures |m[tag]| > 0 && IsSubsequence(m[tag], items)
    {
      var i :| 0 <= i < |items| && items[i].itemType == tag;
      assert items[i] in m[tag];
      OfTagKeepsOrder(items, tag);
    }
    forall x | x in items
      ensures x.itemType in m && x in m[x.itemType]
    {
      var i :| 0 <= i < |items| && items[i] == x;
      assert TagsOf(items)[i] == x.itemType;
    }
  }

  /** The section order: the type keys in ascending order. */
  function SectionOrder(items: seq<ResourceItem>): (r: seq<string>)
    ensures StrictlySorted(r)
    ensures forall tag :: tag in r <==> tag in ItemsByType(items)
  {
    SortedDistinct(TagsOf(items))
  }

  /** The sum of the section sizes over `keys`. */
  function SectionTotal(m: map<string, seq<ResourceItem>>, keys: seq<string>): nat
    requires forall k :: k in keys ==> k in m
  {
    if |keys| == 0 then 0 else |m[keys[0]]| + SectionTotal(m, keys[1..])
  }

  /** How many entries of `keys` equal `tag`. */
  function Occurrences(keys: seq<string>, tag: string): nat {
    if |keys| == 0 then 0 else (if keys[0] == tag then 1 else 0) + Occurrences(keys[1..], tag)
  }

  /** `keys` repeats no element. */
  predicate Distinct(keys: seq<string>) {
    forall i, j :: 0 <= i < j < |keys| ==> keys[i] != keys[j]
  }

  lemma {:induction false} OccurrencesOnce(keys: seq<string>, tag: string)
    requires Distinct(keys) && tag in keys
    ensures Occurrences(keys, tag) == 1
  {
    if keys[0] == tag {
      OccurrencesNone(keys[1..], tag);
    } else {
      OccurrencesOnce(keys[1..], tag);
    }
  }

  lemma {:induction false} OccurrencesNone(keys: seq<string>, tag: string)
    requires Distinct([tag] + keys)
    ensures Occurrences(keys, tag) == 0
  {
    if |keys| > 0 {
      assert ([tag] + keys)[0] != ([tag] + keys)[1];
      assert [tag] + keys[1..] == [tag] + keys[1..];
      assert forall i, j :: 0 <= i < j < |[tag] + keys[1..]| ==>
        ([tag] + keys[1..])[i] == ([tag] + keys)[if i == 0 then 0 else i + 1]
        && ([tag] + keys[1..])[j] == ([tag] + keys)[j + 1];
      OccurrencesNone(keys[1..], tag);
    }
  }

  /** The section sizes over `keys` of the groups of `items`, counted one
      item at a time. */
  function CountOver(items: seq<ResourceItem>, keys: seq<string>): nat {
    if |keys| == 0 then 0 else |OfTag(items, keys[0])| + CountOver(items, keys[1..])
  }

  lemma {:induction false} CountOverCons(x: ResourceItem, rest: seq<ResourceItem>, keys: seq<string>)
    ensures CountOver([x] + rest, keys) == CountOver(rest, keys) + Occurrences(keys, x.itemType)
  {
    if |keys| > 0 {
      assert ([x] + rest)[1..] == rest;
      CountOverCons(x, rest, keys[1..]);
    }
  }

  lemma {:induction false} CountOverAll(items: seq<ResourceItem>, keys: seq<string>)
    requires Distinct(keys)
    requires forall i :: 0 <= i < |items| ==> items[i].itemType in keys
    ensures CountOver(items, keys) == |items|
  {
    if |items| == 0 {
      CountOverEmpty(keys);
    } else {
      assert items == [items[0]] + items[1..];
      CountOverCons(items[0], items[1..], keys);
      OccurrencesOnce(keys, items[0].itemType);
      CountOverAll(items[1..], keys);
    }
  }

  lemma {:induction false} CountOverEmpty(keys: seq<string>)
    ensures CountOver([], keys) == 0
  {
    if |keys| > 0 {
      CountOverEmpty(keys[1..]);
    }
  }

  lemma {:induction false} SectionTotalIsCount(items: seq<ResourceItem>, keys: seq<string>)
    requires forall k :: k in keys ==> k in ItemsByType(items)
    ensures SectionTotal(ItemsByType(items), keys) == CountOver(items, keys)
  {
    if |keys| > 0 {
      SectionTotalIsCount(items, keys[1..]);
    }
  }

  /** The sections shown, in order, account for every retrieved item once. */
  lemma SectionsCoverItems(items: seq<ResourceItem>)
    ensures SectionTotal(ItemsByType(items), SectionOrder(items)) == |items|
  {
    var keys := SectionOrder(items);
    forall i, j | 0 <= i < j < |keys|
      ensures keys[i] != keys[j]
    {
      StrictlySortedDistinct(keys, i, j);
    }
    forall i | 0 <= i < |items|
      ensures items[i].itemType in keys
    {
      assert TagsOf(items)[i] == items[i].itemType;
    }
    SectionTotalIsCount(items, keys);
    CountOverAll(items, keys);
  }

  /** `TypeSectionView.typeDisplayName`: known tags get their label, any
      other tag is shown as is. */
  function TypeDisplayName(tag: string): (r: string)
    ensures FromRawValue(tag).Some? ==> r == FromRawValue(tag).value.DisplayName()
    ensures FromRawValue(tag).None? ==> r == tag
  {
    if tag == "albums" then "アルバム"
    else if tag == "songs" then "楽曲"
    else if tag == "artists" then "アーティスト"
    else tag
  }

  /** `TypeSectionView.typeColor`: the badge colour of the search screen for
      known tags, gray otherwise. */
  function TypeColor(tag: string): (c: Color)
    ensures FromRawValue(tag).Some? ==> c == BadgeColor(FromRawValue(tag).value)
    ensures FromRawValue(tag).None? <==> c == Gray
  {
    if tag == "albums" then Blue
    else if tag == "songs" then Green
    else if tag == "artists" then Orange
    else Gray
  }

  /** The execute button shows only before the first run. */
  predicate ExecuteButtonVisible(s: Screen) {
    s.startTime.None?
  }

  /** A run over a non-empty selection hides the execute button, and a
      hidden button never comes back; with nothing selected the screen, and
      so the button, is left as it was. */
  lemma ExecuteButtonOnlyBeforeRun(s: Screen, startedAt: Instant, env: Environment, finishedAt: Instant,
                                   tokenDescription: TokenRequestError -> string)
    ensures |s.selectedItemIds| > 0 ==> !ExecuteButtonVisible(Run(s, startedAt, env, finishedAt, tokenDescription))
    ensures !ExecuteButtonVisible(s) ==> !ExecuteButtonVisible(Run(s, startedAt, env, finishedAt, tokenDescription))
    ensures |s.selectedItemIds| == 0 ==>
      ExecuteButtonVisible(Run(s, startedAt, env, finishedAt, tokenDescription)) == ExecuteButtonVisible(s)
  {
  }
}
