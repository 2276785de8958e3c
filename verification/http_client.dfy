/** The Apple Music HTTP client: a cached developer token, a batched
    `GET /v1/catalog/{storefront}` built from the selected search results,
    and the classification of the transport outcome into `HTTPAPIError`. */
module HttpClient {

  import opened Wrappers
  import opened MusicKit
  import opened Text
  import opened MixedTypeSearch
  import opened Sequences

  // -----------------------------------------------------------------------
  // Errors

  /** `MusicTokenRequestError`; `Unrecognized` stands for any future case. */
  datatype TokenRequestError =
    | DeveloperTokenRequestFailed
    | PermissionDenied
    | PrivacyAcknowledgementRequired
    | UserNotSignedIn
    | UserTokenRequestFailed
    | UserTokenRevoked
    | Unknown
    | Unrecognized

  /** A Foundation `URLError`, reduced to its code and description. */
  datatype UrlError = UrlError(code: int, description: string)

  /** `HTTPAPIError`. */
  datatype HttpApiError =
    | TokenError(reason: TokenRequestError)
    | NetworkError(urlError: UrlError)
    | ApiError(statusCode: int, message: string)
    | DecodingError(description: string)
    | InvalidUrl
    | NoDataReceived

  const TokenErrorPrefix: string := "トークンエラー: "
  const NetworkErrorPrefix: string := "ネットワークエラー: "
  const ApiErrorPrefix: string := "APIエラー ("
  const DecodingErrorPrefix: string := "データ解析エラー: "
  const InvalidUrlText: string := "無効なURL"
  const NoDataText: string := "データが受信されませんでした"

  /** `HTTPAPIError.localizedDescription`. The description MusicKit gives a
      token error is foreign text, so it is a parameter. */
  function LocalizedDescription(e: HttpApiError, tokenDescription: TokenRequestError -> string): string
  {
    match e
    case TokenError(reason) => TokenErrorPrefix + tokenDescription(reason)
    case NetworkError(u) => NetworkErrorPrefix + u.description
    case ApiError(status, message) => ApiErrorPrefix + IntToString(status) + "): " + message
    case DecodingError(description) => DecodingErrorPrefix + description
    case InvalidUrl => InvalidUrlText
    case NoDataReceived => NoDataText
  }

  /** The case of an error, without its payload. */
  datatype ErrorKind = TokenKind | NetworkKind | ApiKind | DecodingKind | InvalidUrlKind | NoDataKind

  function KindOf(e: HttpApiError): ErrorKind {
    match e
    case TokenError(_) => TokenKind
    case NetworkError(_) => NetworkKind
    case ApiError(_, _) => ApiKind
    case DecodingError(_) => DecodingKind
    case InvalidUrl => InvalidUrlKind
    case NoDataReceived => NoDataKind
  }

  /** Reads the case back from a description's leading text. */
  function KindOfDescription(text: string): Option<ErrorKind> {
    if TokenErrorPrefix <= text then Some(TokenKind)
    else if NetworkErrorPrefix <= text then Some(NetworkKind)
    else if ApiErrorPrefix <= text then Some(ApiKind)
    else if DecodingErrorPrefix <= text then Some(DecodingKind)
    else if text == InvalidUrlText then Some(InvalidUrlKind)
    else if text == NoDataText then Some(NoDataKind)
    else None
  }

  /** Every error's description names its case unambiguously, whatever the
      payload texts are. */
  lemma DescriptionRevealsKind(e: HttpApiError, tokenDescription: TokenRequestError -> string)
    ensures KindOfDescription(LocalizedDescription(e, tokenDescription)) == Some(KindOf(e))
  {
    var d := LocalizedDescription(e, tokenDescription);
    match e
    case TokenError(reason) =>
      assert d[..|TokenErrorPrefix|] == TokenErrorPrefix;
    case NetworkError(u) =>
      assert d[..|NetworkErrorPrefix|] == NetworkErrorPrefix;
      assert d[0] != TokenErrorPrefix[0];
    case ApiError(status, message) =>
      assert d[..|ApiErrorPrefix|] == ApiErrorPrefix;
      assert d[0] != TokenErrorPrefix[0] && d[0] != NetworkErrorPrefix[0];
    case DecodingError(description) =>
      assert d[..|DecodingErrorPrefix|] == DecodingErrorPrefix;
      assert d[0] != TokenErrorPrefix[0] && d[0] != NetworkErrorPrefix[0] && d[0] != ApiErrorPrefix[0];
    case InvalidUrl =>
      assert d[0] != TokenErrorPrefix[0] && d[0] != NetworkErrorPrefix[0] && d[0] != ApiErrorPrefix[0];
      assert d[0] != DecodingErrorPrefix[0];
    case NoDataReceived =>
      assert d[0] != TokenErrorPrefix[0] && d[0] != NetworkErrorPrefix[0] && d[0] != ApiErrorPrefix[0];
      assert d[3] != DecodingErrorPrefix[3];
  }

  /** `getTokenErrorMessage(for:)`: remediation text for each token error. */
  function TokenErrorMessage(e: TokenRequestError): (r: string)
    ensures |r| > 0
  {
    match e
    case DeveloperTokenRequestFailed =>
      "Developer Token の取得に失敗しました。\nApp ID と MusicKit サービスの設定を確認してください。"
    case PermissionDenied =>
      "Apple Music へのアクセス許可が拒否されました。\n設定から許可を与えてください。"
    case PrivacyAcknowledgementRequired =>
      "最新のプライバシーポリシーへの同意が必要です。\nApple Music アプリで同意してください。"
    case UserNotSignedIn =>
      "Apple ID にサインインしていません。\n設定からサインインしてください。"
    case UserTokenRequestFailed =>
      "ユーザートークンの取得に失敗しました。"
    case UserTokenRevoked =>
      "Apple Music へのアクセス許可が取り消されました。\n再度許可を与えてください。"
    case Unknown =>
      "不明なエラーが発生しました。"
    case Unrecognized =>
      "予期しないエラーが発生しました。"
  }

  /** Different token errors never share a message, so the user can always
      tell which remedy applies. */
  lemma TokenErrorMessagesDistinct(a: TokenRequestError, b: TokenRequestError)
    requires a != b
    ensures TokenErrorMessage(a) != TokenErrorMessage(b)
  {
    TokenErrorMessageIdentifies(a);
    TokenErrorMessageIdentifies(b);
  }

  /** Reads the token error back from its guidance message; the messages
      differ in length, so the length alone decides. */
  function TokenErrorOfMessage(message: string): Option<TokenRequestError> {
    match |message|
    case 63 => Some(DeveloperTokenRequestFailed)
    case 45 => Some(PermissionDenied)
    case 49 => Some(PrivacyAcknowledgementRequired)
    case 39 => Some(UserNotSignedIn)
    case 19 => Some(UserTokenRequestFailed)
    case 44 => Some(UserTokenRevoked)
    case 14 => Some(Unknown)
    case 16 => Some(TokenRequestError.Unrecognized)
    case _ => None
  }

  /** Every guidance message names the error it was chosen for. */
  lemma TokenErrorMessageIdentifies(e: TokenRequestError)
    ensures TokenErrorOfMessage(TokenErrorMessage(e)) == Some(e)
  {
  }

  // -----------------------------------------------------------------------
  // Developer token cache

  /** How long a fetched developer token is trusted: one hour, in ms. */
  const TokenValidity: int := 3600 * 1000

  datatype TokenCache = TokenCache(cachedToken: Option<string>, tokenExpiration: Option<Instant>)

  const EmptyCache: TokenCache := TokenCache(None, None)

  /** The cached token may be reused at `now`. */
  predicate CacheUsable(c: TokenCache, now: Instant) {
    c.cachedToken.Some? && c.tokenExpiration.Some? && now < c.tokenExpiration.value
  }

  /** What `DefaultMusicTokenProvider.developerToken` does when called. */
  datatype ProviderOutcome =
    | Issued(token: string)
    | TokenRequestFailed(reason: TokenRequestError)
    | OtherProviderFailure(description: string)

  /** The cache after a `getDeveloperToken` call, its result, and whether the
      provider was asked. */
  datatype TokenStep = TokenStep(cache: TokenCache, token: Result<string, HttpApiError>, providerCalled: bool)

  /** `getDeveloperToken`. The clock is read twice: `now` for the expiry
      check and `issuedAt` after the provider has answered; `provider` is
      what the provider answers if it is asked. */
  function GetDeveloperToken(cache: TokenCache, now: Instant, issuedAt: Instant, provider: ProviderOutcome): (r: TokenStep)
    ensures r.providerCalled <==> !CacheUsable(cache, now)
    ensures !r.providerCalled ==> r.cache == cache && r.token == Success(cache.cachedToken.value)
    ensures r.token.Failure? ==> r.cache == cache && r.token.error.TokenError?
    ensures r.providerCalled && provider.Issued? ==>
      r.token == Success(provider.token) && r.cache == TokenCache(Some(provider.token), Some(issuedAt + TokenValidity))
    ensures r.providerCalled && provider.TokenRequestFailed? ==> r.token == Failure(TokenError(provider.reason))
    ensures r.providerCalled && provider.OtherProviderFailure? ==> r.token == Failure(TokenError(Unknown))
  {
    if cache.cachedToken.Some? && cache.tokenExpiration.Some? && now < cache.tokenExpiration.value then
      TokenStep(cache, Success(cache.cachedToken.value), false)
    else
      match provider
      case Issued(token) => TokenStep(TokenCache(Some(token), Some(issuedAt + TokenValidity)), Success(token), true)
      case TokenRequestFailed(reason) => TokenStep(cache, Failure(TokenError(reason)), true)
      case OtherProviderFailure(_) => TokenStep(cache, Failure(TokenError(Unknown)), true)
  }

  /** Two calls in a row that do not cross the expiry of the token the first
      one returned ask the provider at most once, and both return the same
      token. */
  lemma AtMostOneProviderCall(
    cache: TokenCache, now1: Instant, issued1: Instant, p1: ProviderOutcome,
    now2: Instant, issued2: Instant, p2: ProviderOutcome)
    requires GetDeveloperToken(cache, now1, issued1, p1).token.Success?
    requires now2 < GetDeveloperToken(cache, now1, issued1, p1).cache.tokenExpiration.value
    ensures
      var r1 := GetDeveloperToken(cache, now1, issued1, p1);
      var r2 := GetDeveloperToken(r1.cache, now2, issued2, p2);
      && !r2.providerCalled
      && r2.token == r1.token
      && r2.cache == r1.cache
  {
  }

  /** Refreshing an expired token moves the expiry strictly forward, provided
      the clock has not gone back between the two readings. */
  lemma RefreshExtendsExpiry(cache: TokenCache, now: Instant, issuedAt: Instant, token: string)
    requires cache.tokenExpiration.Some? && cache.tokenExpiration.value <= now <= issuedAt
    ensures
      var r := GetDeveloperToken(cache, now, issuedAt, Issued(token));
      r.providerCalled && r.cache.tokenExpiration.value > cache.tokenExpiration.value
  {
  }

  // -----------------------------------------------------------------------
  // Resource response

  datatype Artwork = Artwork(width: Option<int>, height: Option<int>, url: Option<string>)

  datatype ResourceAttributes = ResourceAttributes(
    name: string,
    artistName: Option<string>,
    releaseDate: Option<string>,
    artwork: Option<Artwork>,
    trackCount: Option<int>,
    genreNames: Option<seq<string>>)

  /** One decoded record; `itemType` is the record's own `type` field. */
  datatype ResourceItem = ResourceItem(id: string, itemType: string, attributes: ResourceAttributes)

  datatype MixedResourceResponse = MixedResourceResponse(data: seq<ResourceItem>)

  // -----------------------------------------------------------------------
  // Request building

  /** The search results the request asks for, grouped by tag: those whose
      id is among `ids` and whose tag is `t`, in search-result order. */
  function Group(results: seq<MixedSearchResult>, ids: seq<string>, t: MixedItemType): (r: seq<MixedSearchResult>)
    ensures |r| <= |results|
    ensures forall x :: x in r ==> x in results && x.id in ids && x.itemType == t
    ensures forall x :: x in results && x.id in ids && x.itemType == t ==> x in r
  {
    if |results| == 0 then []
    else if results[0].id in ids && results[0].itemType == t then [results[0]] + Group(results[1..], ids, t)
    else Group(results[1..], ids, t)
  }

  /** `Dictionary(grouping:by:)` over the selected results: one entry per tag
      that occurs. */
  function IdsByType(results: seq<MixedSearchResult>, ids: seq<string>): (m: map<MixedItemType, seq<MixedSearchResult>>)
    ensures forall t :: t in m ==> |m[t]| > 0
    ensures forall t, x :: t in m && x in m[t] ==> x in results && x.id in ids && x.itemType == t
    ensures forall x :: x in results && x.id in ids ==> x.itemType in m && x in m[x.itemType]
  {
    var m := map t | t in {Albums, Songs, Artists} && |Group(results, ids, t)| > 0 :: Group(results, ids, t);
    assert forall x :: x in results && x.id in ids ==> x in Group(results, ids, x.itemType);
    m
  }

  /** Grouping keeps every matching result as often as it occurs, and no
      other result. */
  lemma {:induction false} GroupCounts(results: seq<MixedSearchResult>, ids: seq<string>, t: MixedItemType)
    ensures forall x :: multiset(Group(results, ids, t))[x] == (if x.id in ids && x.itemType == t then multiset(results)[x] else 0)
  {
    if |results| > 0 {
      GroupCounts(results[1..], ids, t);
      assert results == [results[0]] + results[1..];
    }
  }

  lemma {:induction false} GroupKeepsOrder(results: seq<MixedSearchResult>, ids: seq<string>, t: MixedItemType)
    ensures IsSubsequence(Group(results, ids, t), results)
  {
    if |results| > 0 {
      GroupKeepsOrder(results[1..], ids, t);
      var g := Group(results, ids, t);
      if results[0].id in ids && results[0].itemType == t {
        assert g[1..] == Group(results[1..], ids, t);
      }
    }
  }

  /** Each group keeps the search-result order. */
  lemma IdsByTypeKeepsOrder(results: seq<MixedSearchResult>, ids: seq<string>)
    ensures forall t :: t in IdsByType(results, ids) ==> IsSubsequence(IdsByType(results, ids)[t], results)
  {
    forall t | t in IdsByType(results, ids)
      ensures IsSubsequence(IdsByType(results, ids)[t], results)
    {
      GroupKeepsOrder(results, ids, t);
    }
  }

  /** Only membership in `ids` matters: the order `Array(Set)` happens to
      give, and repeats, do not change the grouping. */
  lemma {:induction false} GroupIgnoresIdOrder(results: seq<MixedSearchResult>, ids1: seq<string>, ids2: seq<string>, t: MixedItemType)
    requires forall id :: id in ids1 <==> id in ids2
    ensures Group(results, ids1, t) == Group(results, ids2, t)
  {
    if |results| > 0 {
      GroupIgnoresIdOrder(results[1..], ids1, ids2, t);
    }
  }

  datatype QueryItem = QueryItem(name: string, value: string)

  const IncludeItem: QueryItem := QueryItem("include", "artists,albums")

  function IdsParamName(t: MixedItemType): string {
    "ids[" + t.RawValue() + "]"
  }

  function IdsOf(results: seq<MixedSearchResult>): (r: seq<string>)
    ensures |r| == |results|
    ensures forall i :: 0 <= i < |r| ==> r[i] == results[i].id
  {
    if |results| == 0 then [] else [results[0].id] + IdsOf(results[1..])
  }

  /** The `ids[type]` item for one tag, present when its group is non-empty. */
  function GroupItem(m: map<MixedItemType, seq<MixedSearchResult>>, t: MixedItemType): seq<QueryItem> {
    if t in m && |m[t]| > 0 then [QueryItem(IdsParamName(t), Join(IdsOf(m[t]), ','))] else []
  }

  /** 1 when tag `t` has a non-empty group, else 0. */
  function Present(m: map<MixedItemType, seq<MixedSearchResult>>, t: MixedItemType): nat {
    if t in m && |m[t]| > 0 then 1 else 0
  }

  /** Where the `ids[type]` item of tag `t` goes: after the items of the
      non-empty groups of the tags before it in albums, songs, artists order. */
  function GroupPosition(m: map<MixedItemType, seq<MixedSearchResult>>, t: MixedItemType): nat {
    match t
    case Albums => 0
    case Songs => Present(m, Albums)
    case Artists => Present(m, Albums) + Present(m, Songs)
  }

  /** The query items in the order the client appends them. */
  function QueryItems(m: map<MixedItemType, seq<MixedSearchResult>>): (r: seq<QueryItem>)
    ensures |r| == NonEmptyGroups(m) + 1
    ensures r[|r| - 1] == IncludeItem
  {
    GroupItem(m, Albums) + GroupItem(m, Songs) + GroupItem(m, Artists) + [IncludeItem]
  }

  /** One `ids[type]` item per non-empty group, albums before songs before
      artists, then the include item: with the length and the last item
      that `QueryItems` states, this fixes every position of the list. */
  lemma QueryItemsInOrder(m: map<MixedItemType, seq<MixedSearchResult>>, t: MixedItemType)
    requires t in m && |m[t]| > 0
    ensures GroupPosition(m, t) < |QueryItems(m)| - 1
    ensures QueryItems(m)[GroupPosition(m, t)] == QueryItem(IdsParamName(t), Join(IdsOf(m[t]), ','))
  {
  }

  /** The number of tags with a non-empty group. */
  function NonEmptyGroups(m: map<MixedItemType, seq<MixedSearchResult>>): nat {
    Present(m, Albums) + Present(m, Songs) + Present(m, Artists)
  }

  /** The value of the first query item called `name`. */
  function Lookup(items: seq<QueryItem>, name: string): Option<string> {
    if |items| == 0 then None
    else if items[0].name == name then Some(items[0].value)
    else Lookup(items[1..], name)
  }

  lemma {:induction false} LookupAppend(a: seq<QueryItem>, b: seq<QueryItem>, name: string)
    requires forall i :: 0 <= i < |a| ==> a[i].name != name
    ensures Lookup(a + b, name) == Lookup(b, name)
  {
    if |a| > 0 {
      assert (a + b)[1..] == a[1..] + b;
      LookupAppend(a[1..], b, name);
    } else {
      assert a + b == b;
    }
  }

  lemma ParamNamesDistinct(t: MixedItemType, u: MixedItemType)
    ensures t != u ==> IdsParamName(t) != IdsParamName(u)
    ensures IdsParamName(t) != "include"
  {
    assert IdsParamName(t)[1] == 'd';
    if t != u {
      assert IdsParamName(t)[5] != IdsParamName(u)[5] || IdsParamName(t)[4] != IdsParamName(u)[4];
    }
  }

  lemma {:induction false} LookupAbsent(items: seq<QueryItem>, name: string)
    requires forall i :: 0 <= i < |items| ==> items[i].name != name
    ensures Lookup(items, name) == None
  {
    if |items| > 0 {
      LookupAbsent(items[1..], name);
    }
  }

  lemma LookupBetween(before: seq<QueryItem>, g: seq<QueryItem>, after: seq<QueryItem>, name: string)
    requires forall i :: 0 <= i < |before| ==> before[i].name != name
    requires forall i :: 0 <= i < |after| ==> after[i].name != name
    requires |g| <= 1 && (|g| == 1 ==> g[0].name == name)
    ensures Lookup(before + g + after, name) == if |g| == 1 then Some(g[0].value) else None
  {
    var rest := g + after;
    assert before + g + after == before + rest;
    LookupAppend(before, rest, name);
    if |g| == 0 {
      assert rest == after;
      LookupAbsent(after, name);
    } else {
      assert rest[0] == g[0];
    }
  }

  /** What a server reading the `ids[type]` item finds: the comma-joined ids
      of that tag's group, or nothing when the group is empty. */
  lemma LookupIdsParam(m: map<MixedItemType, seq<MixedSearchResult>>, t: MixedItemType)
    ensures Lookup(QueryItems(m), IdsParamName(t))
      == if t in m && |m[t]| > 0 then Some(Join(IdsOf(m[t]), ',')) else None
  {
    match t
    case Albums => LookupAlbumsParam(m);
    case Songs => LookupSongsParam(m);
    case Artists => LookupArtistsParam(m);
  }

  lemma LookupAlbumsParam(m: map<MixedItemType, seq<MixedSearchResult>>)
    ensures Lookup(QueryItems(m), IdsParamName(Albums))
      == if Albums in m && |m[Albums]| > 0 then Some(Join(IdsOf(m[Albums]), ',')) else None
  {
    var a, s, r := GroupItem(m, Albums), GroupItem(m, Songs), GroupItem(m, Artists);
    ParamNamesDistinct(Albums, Songs);
    ParamNamesDistinct(Albums, Artists);
    assert QueryItems(m) == [] + a + (s + r + [IncludeItem]);
    LookupBetween([], a, s + r + [IncludeItem], IdsParamName(Albums));
  }

  lemma LookupSongsParam(m: map<MixedItemType, seq<MixedSearchResult>>)
    ensures Lookup(QueryItems(m), IdsParamName(Songs))
      == if Songs in m && |m[Songs]| > 0 then Some(Join(IdsOf(m[Songs]), ',')) else None
  {
    var a, s, r := GroupItem(m, Albums), GroupItem(m, Songs), GroupItem(m, Artists);
    ParamNamesDistinct(Songs, Albums);
    ParamNamesDistinct(Songs, Artists);
    assert QueryItems(m) == a + s + (r + [IncludeItem]);
    LookupBetween(a, s, r + [IncludeItem], IdsParamName(Songs));
  }

  lemma LookupArtistsParam(m: map<MixedItemType, seq<MixedSearchResult>>)
    ensures Lookup(QueryItems(m), IdsParamName(Artists))
      == if Artists in m && |m[Artists]| > 0 then Some(Join(IdsOf(m[Artists]), ',')) else None
  {
    var a, s, r := GroupItem(m, Albums), GroupItem(m, Songs), GroupItem(m, Artists);
    ParamNamesDistinct(Artists, Albums);
    ParamNamesDistinct(Artists, Songs);
    assert QueryItems(m) == (a + s) + r + [IncludeItem];
    LookupBetween(a + s, r, [IncludeItem], IdsParamName(Artists));
  }

  /** The include item is always present, after every ids item. */
  lemma LookupInclude(m: map<MixedItemType, seq<MixedSearchResult>>)
    ensures Lookup(QueryItems(m), "include") == Some("artists,albums")
  {
    var a, s, r := GroupItem(m, Albums), GroupItem(m, Songs), GroupItem(m, Artists);
    ParamNamesDistinct(Albums, Albums);
    ParamNamesDistinct(Songs, Songs);
    ParamNamesDistinct(Artists, Artists);
    assert QueryItems(m) == (a + s + r) + [IncludeItem];
    LookupAppend(a + s + r, [IncludeItem], "include");
  }

  /** A server reading the query finds, under `ids[type]`, exactly the ids
      of that tag's group in order (when no id contains a comma), finds no
      such item for an absent tag, and always finds the include item. */
  lemma QueryRoundTrip(m: map<MixedItemType, seq<MixedSearchResult>>, t: MixedItemType)
    requires forall u, x :: u in m && x in m[u] ==> ',' !in x.id
    ensures |QueryItems(m)| == NonEmptyGroups(m) + 1
    ensures t in m && |m[t]| > 0 ==>
      Lookup(QueryItems(m), IdsParamName(t)).Some? &&
      Split(Lookup(QueryItems(m), IdsParamName(t)).value, ',') == IdsOf(m[t])
    ensures !(t in m && |m[t]| > 0) ==> Lookup(QueryItems(m), IdsParamName(t)).None?
    ensures Lookup(QueryItems(m), "include") == Some("artists,albums")
  {
    LookupIdsParam(m, t);
    LookupInclude(m);
    if t in m && |m[t]| > 0 {
      var ids := IdsOf(m[t]);
      assert forall i :: 0 <= i < |ids| ==> ids[i] == m[t][i].id && m[t][i] in m[t];
      SplitJoin(ids, ',');
    }
  }

  /** A header field of the request. */
  datatype Header = Header(field: string, value: string)

  datatype HttpRequest = HttpRequest(scheme: string, host: string, path: string, query: seq<QueryItem>, headers: seq<Header>)

  function BearerHeader(token: string): Header {
    Header("Authorization", "Bearer " + token)
  }

  /** The GET request for a storefront, token and grouping. */
  function BuildRequest(storefront: string, token: string, m: map<MixedItemType, seq<MixedSearchResult>>): (r: HttpRequest)
    ensures r.scheme == "https" && r.host == "api.music.apple.com"
    ensures r.path == "/v1/catalog/" + storefront
    ensures r.query == QueryItems(m)
    ensures |r.headers| == 2 && r.headers[0] == BearerHeader(token)
    ensures r.headers[1] == Header("Content-Type", "application/json")
  {
    HttpRequest("https", "api.music.apple.com", "/v1/catalog/" + storefront, QueryItems(m),
      [BearerHeader(token), Header("Content-Type", "application/json")])
  }

  /** The request built from a selection asks, under `ids[type]`, for
      exactly the selected results of that type, comma-joined in
      search-result order, and has no such item when none was selected. */
  lemma RequestAsksForSelection(storefront: string, token: string, results: seq<MixedSearchResult>, ids: seq<string>, t: MixedItemType)
    ensures Lookup(BuildRequest(storefront, token, IdsByType(results, ids)).query, IdsParamName(t))
      == if |Group(results, ids, t)| > 0 then Some(Join(IdsOf(Group(results, ids, t)), ',')) else None
  {
    LookupIdsParam(IdsByType(results, ids), t);
  }

  /** The selection can ask for more resources than ids were selected: ids
      are compared as strings, so an album and a song that share an id are
      both requested for one selected id. */
  lemma SharedIdRequestsBoth()
    ensures
      var album := MixedSearchResult("1", "A", "X", Albums, Some("1"));
      var song := MixedSearchResult("1", "S", "X", Songs, Some("1"));
      var m := IdsByType([album, song], ["1"]);
      Albums in m && Songs in m && |m[Albums]| + |m[Songs]| == 2
  {
    var album := MixedSearchResult("1", "A", "X", Albums, Some("1"));
    var song := MixedSearchResult("1", "S", "X", Songs, Some("1"));
    assert album in [album, song] && song in [album, song];
    var m := IdsByType([album, song], ["1"]);
    assert Group([album, song], ["1"], Albums) == [album];
    assert Group([album, song], ["1"], Songs) == [song];
  }

  // -----------------------------------------------------------------------
  // Transport outcome

  datatype HttpResponse = NonHttpResponse | HttpUrlResponse(statusCode: int)

  /** What the body bytes give when read as UTF-8 text and when decoded as
      the JSON envelope (the decoder's error text on failure). */
  datatype ResponseBody = ResponseBody(utf8: Option<string>, decoded: Result<MixedResourceResponse, string>)

  /** What `URLSession.data(for:)` does with the request. */
  datatype TransportOutcome =
    | Received(body: ResponseBody, response: HttpResponse)
    | UrlFailure(urlError: UrlError)
    | OtherFailure(description: string)

  const UnknownErrorText: string := "不明なエラー"
  const UnknownErrorPrefix: string := "不明なエラー: "

  /** The `do`/`catch` around the HTTP call. */
  function Classify(outcome: TransportOutcome): (r: Result<MixedResourceResponse, HttpApiError>)
    ensures outcome.UrlFailure? ==> r == Failure(NetworkError(outcome.urlError))
    ensures outcome.OtherFailure? ==> r == Failure(ApiError(0, UnknownErrorPrefix + outcome.description))
    ensures outcome.Received? && outcome.response.NonHttpResponse? ==> r == Failure(NoDataReceived)
    ensures outcome.Received? && outcome.response.HttpUrlResponse? && outcome.response.statusCode != 200 ==>
      r == Failure(ApiError(outcome.response.statusCode, outcome.body.utf8.GetOr(UnknownErrorText)))
    ensures r.Success? <==>
      outcome.Received? && outcome.response == HttpUrlResponse(200) && outcome.body.decoded.Success?
    ensures r.Success? ==> r.value == outcome.body.decoded.value
    ensures outcome.Received? && outcome.response == HttpUrlResponse(200) && outcome.body.decoded.Failure? ==>
      r == Failure(DecodingError(outcome.body.decoded.error))
  {
    match outcome
    case UrlFailure(u) => Failure(NetworkError(u))
    case OtherFailure(description) => Failure(ApiError(0, UnknownErrorPrefix + description))
    case Received(body, response) =>
      match response
      case NonHttpResponse => Failure(NoDataReceived)
      case HttpUrlResponse(status) =>
        if status != 200 then
          Failure(ApiError(status, match body.utf8 case Some(text) => text case None => UnknownErrorText))
        else
          match body.decoded
          case Success(decoded) => Success(decoded)
          case Failure(description) => Failure(DecodingError(description))
  }

  /** A non-200 response is never decoded: the decoder's answer does not
      affect the result. */
  lemma NonOkIgnoresDecoder(status: int, utf8: Option<string>, d1: Result<MixedResourceResponse, string>, d2: Result<MixedResourceResponse, string>)
    requires status != 200
    ensures Classify(Received(ResponseBody(utf8, d1), HttpUrlResponse(status)))
         == Classify(Received(ResponseBody(utf8, d2), HttpUrlResponse(status)))
  {
  }

  // -----------------------------------------------------------------------
  // fetchMixedResources

  /** The answers of everything outside the client during one call. */
  datatype Environment = Environment(
    now: Instant,
    issuedAt: Instant,
    provider: ProviderOutcome,
    storefront: Option<string>,
    urlBuilds: bool,
    transport: TransportOutcome)

  /** An observable step, in the order the client takes them. */
  datatype Effect = ProviderCall | StorefrontLookup | RequestSent(request: HttpRequest)

  datatype Fetch = Fetch(cache: TokenCache, result: Result<MixedResourceResponse, HttpApiError>, effects: seq<Effect>)

  const StorefrontFailureMessage: string := "ストアフロントの取得に失敗しました"

  predicate Sent(f: Fetch) {
    |f.effects| > 0 && f.effects[|f.effects| - 1].RequestSent?
  }

  /** `fetchMixedResources(ids:searchResults:)`. */
  function FetchMixedResources(ids: seq<string>, results: seq<MixedSearchResult>, cache: TokenCache, env: Environment): (r: Fetch)
    ensures r.cache == GetDeveloperToken(cache, env.now, env.issuedAt, env.provider).cache
    ensures GetDeveloperToken(cache, env.now, env.issuedAt, env.provider).token.Failure? ==>
      r.result == Failure(GetDeveloperToken(cache, env.now, env.issuedAt, env.provider).token.error)
      && StorefrontLookup !in r.effects && !Sent(r)
    ensures GetDeveloperToken(cache, env.now, env.issuedAt, env.provider).token.Success? && env.storefront.None? ==>
      r.result == Failure(ApiError(0, StorefrontFailureMessage)) && StorefrontLookup in r.effects && !Sent(r)
    ensures Sent(r) ==>
      r.effects[|r.effects| - 1].request
        == BuildRequest(env.storefront.value, GetDeveloperToken(cache, env.now, env.issuedAt, env.provider).token.value, IdsByType(results, ids))
      && r.result == Classify(env.transport)
    ensures r.result.Success? ==> Sent(r)
  {
    var step := GetDeveloperToken(cache, env.now, env.issuedAt, env.provider);
    var calls := if step.providerCalled then [ProviderCall] else [];
    match step.token
    case Failure(e) => Fetch(step.cache, Failure(e), calls)
    case Success(token) =>
      match env.storefront
      case None => Fetch(step.cache, Failure(ApiError(0, StorefrontFailureMessage)), calls + [StorefrontLookup])
      case Some(storefront) =>
        if !env.urlBuilds then
          Fetch(step.cache, Failure(InvalidUrl), calls + [StorefrontLookup])
        else
          var request := BuildRequest(storefront, token, IdsByType(results, ids));
          Fetch(step.cache, Classify(env.transport), calls + [StorefrontLookup, RequestSent(request)])
  }

  /** The effects of a fetch: the provider call when the cache cannot be
      used, then (once a token is at hand) the storefront lookup, then the
      request when a URL could be built. */
  lemma FetchEffectsAre(ids: seq<string>, results: seq<MixedSearchResult>, cache: TokenCache, env: Environment)
    ensures var step := GetDeveloperToken(cache, env.now, env.issuedAt, env.provider);
      var calls := if step.providerCalled then [ProviderCall] else [];
      var r := FetchMixedResources(ids, results, cache, env);
      && (step.token.Failure? ==> r.effects == calls)
      && (step.token.Success? && (env.storefront.None? || !env.urlBuilds) ==> r.effects == calls + [StorefrontLookup])
      && (step.token.Success? && env.storefront.Some? && env.urlBuilds ==>
            r.effects == calls + [StorefrontLookup, RequestSent(BuildRequest(env.storefront.value, step.token.value, IdsByType(results, ids)))])
  {
  }

  /** When a token and a storefront are at hand but no URL can be built,
      the call fails with `invalidURL` after the storefront lookup, and no
      request is sent. */
  lemma FetchInvalidUrl(ids: seq<string>, results: seq<MixedSearchResult>, cache: TokenCache, env: Environment)
    requires GetDeveloperToken(cache, env.now, env.issuedAt, env.provider).token.Success?
    requires env.storefront.Some? && !env.urlBuilds
    ensures
      var r := FetchMixedResources(ids, results, cache, env);
      r.result == Failure(InvalidUrl) && StorefrontLookup in r.effects && !Sent(r)
  {
  }

  /** The provider is asked exactly when the cache cannot be used. */
  lemma FetchCallsProviderIffStale(ids: seq<string>, results: seq<MixedSearchResult>, cache: TokenCache, env: Environment)
    ensures ProviderCall in FetchMixedResources(ids, results, cache, env).effects <==> !CacheUsable(cache, env.now)
  {
    FetchEffectsAre(ids, results, cache, env);
  }

  /** At most one request is sent, and only as the last effect. */
  lemma FetchSendsLast(ids: seq<string>, results: seq<MixedSearchResult>, cache: TokenCache, env: Environment)
    ensures var r := FetchMixedResources(ids, results, cache, env);
      |r.effects| > 0 && NoRequest(r.effects[..|r.effects| - 1])
  {
    FetchEffectsAre(ids, results, cache, env);
    var step := GetDeveloperToken(cache, env.now, env.issuedAt, env.provider);
    var calls := if step.providerCalled then [ProviderCall] else [];
    NoRequestBeforeSending(calls);
    var effects := FetchMixedResources(ids, results, cache, env).effects;
    if step.token.Success? && env.storefront.Some? && env.urlBuilds {
      assert effects[..|effects| - 1] == calls + [StorefrontLookup];
    }
  }

  /** No effect in the list is a sent request. */
  predicate NoRequest(effects: seq<Effect>) {
    forall i :: 0 <= i < |effects| ==> !effects[i].RequestSent?
  }

  lemma NoRequestBeforeSending(calls: seq<Effect>)
    requires calls == [] || calls == [ProviderCall]
    ensures NoRequest(calls) && NoRequest(calls + [StorefrontLookup])
  {
  }

  /** When a token is at hand, a storefront is found and the URL builds, the
      request is sent and carries the token the cache held or fetched. */
  lemma SentRequestCarriesToken(ids: seq<string>, results: seq<MixedSearchResult>, cache: TokenCache, env: Environment)
    requires GetDeveloperToken(cache, env.now, env.issuedAt, env.provider).token.Success?
    requires env.storefront.Some? && env.urlBuilds
    ensures
      var r := FetchMixedResources(ids, results, cache, env);
      Sent(r)
      && r.cache.cachedToken.Some?
      && r.effects[|r.effects| - 1].request.headers[0] == BearerHeader(r.cache.cachedToken.value)
  {
  }
}
