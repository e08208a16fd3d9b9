/** The two legacy REST clients: `MediaApiService` (src/lib/api/api.ts),
    which talks to the media server with a bearer token, and
    `JellyfinApiService` (src/lib/jellyfin/api.ts), which talks to a
    Jellyfin server with an `X-Emby-Token` header. Both read the user id
    from a stored record, build their URLs the same way, map the server's
    items with the same defaults, and degrade to an empty value on any
    failure instead of throwing. Every fetch is an input. */
module LegacyApi {
  import opened Js
  import opened Text
  import opened ApiTypes
  import opened Storage

  /** Which of the two clients is meant. */
  datatype Flavour = MediaServer | Jellyfin

  /** The storage key of the logged-in user record. */
  function UserKey(f: Flavour): string {
    match f
    case MediaServer => "user_data"
    case Jellyfin => "jellyfin_user"
  }

  /** The header that carries the access token. */
  function AuthHeader(f: Flavour, token: string): (string, string) {
    match f
    case MediaServer => ("Authorization", "Bearer " + token)
    case Jellyfin => ("X-Emby-Token", token)
  }

  /** What a call reads from its surroundings: the client's server URL (as
      `getServerUrl` reports it), its access token, and `localStorage`. */
  datatype Session = Session(serverUrl: string, accessToken: string, storage: map<string, string>)

  /** A call's effect: the request it sent, if any, and what it resolves
      with. */
  datatype Outcome<T> = Outcome(sent: Option<Request>, value: T)

  /** `getUserId`: the `Id` of the stored user record; a missing or empty
      entry throws 'User not logged in'. */
  function GetUserId(f: Flavour, session: Session, userJson: Json<User>): (r: Result<string>)
    ensures r.Err? <==> !(UserKey(f) in session.storage && session.storage[UserKey(f)] != "")
    ensures r.Err? ==> r.error == "User not logged in"
    ensures r.Ok? ==> r.value == userJson.parse(session.storage[UserKey(f)]).id
  {
    var stored := if UserKey(f) in session.storage then Some(session.storage[UserKey(f)]) else None;
    if !TruthyText(stored) then Err("User not logged in") else Ok(userJson.parse(stored.value).id)
  }

  /** `getImageUrl`: the item's image path, with a width and quality suffix
      only when the width is truthy. */
  function ImageUrl(serverUrl: string, itemId: string, imageType: string, width: Option<int>): (r: string)
    ensures var path := serverUrl + "/Items/" + itemId + "/Images/" + imageType;
      && (!TruthyInt(width) ==> r == path)
      && (TruthyInt(width) ==> r == path + "?width=" + IntToString(width.value) + "&quality=90")
      && (r == path <==> !TruthyInt(width))
  {
    var url := serverUrl + "/Items/" + itemId + "/Images/" + imageType;
    if TruthyInt(width) then url + "?width=" + IntToString(width.value) + "&quality=90" else url
  }

  /** An item as the server sends it: any field may be missing. */
  datatype RawItem = RawItem(
    id: Option<string>,
    name: Option<string>,
    itemType: Option<string>,
    overview: Option<string>,
    imageTags: Option<ImageTags>,
    userData: Option<UserData>,
    productionYear: Option<Number>,
    runTimeTicks: Option<Number>,
    officialRating: Option<string>,
    communityRating: Option<Number>,
    genres: Option<seq<string>>)

  /** One element of `mapItems`. */
  function MapItem(raw: RawItem): (r: MediaItem)
    ensures r.id == OrText(raw.id, Some("")).value
    ensures r.name == OrText(raw.name, Some("")).value
    ensures r.itemType == OrText(raw.itemType, Some("")).value
    ensures r.overview == raw.overview && r.imageTags == raw.imageTags && r.userData == raw.userData
    ensures r.productionYear == raw.productionYear && r.runTimeTicks == raw.runTimeTicks
    ensures r.officialRating == raw.officialRating && r.communityRating == raw.communityRating
    ensures r.genres == raw.genres
    ensures r.posterUrl.None? && r.mediaType.None?
  {
    BareItem(OrText(raw.id, Some("")).value, OrText(raw.name, Some("")).value, OrText(raw.itemType, Some("")).value)
      .(overview := raw.overview, imageTags := raw.imageTags, userData := raw.userData,
        productionYear := raw.productionYear, runTimeTicks := raw.runTimeTicks,
        officialRating := raw.officialRating, communityRating := raw.communityRating,
        genres := raw.genres)
  }

  /** `mapItems`: element by element, so length and order are kept. */
  function MapItems(raws: seq<RawItem>): (r: seq<MediaItem>)
    ensures |r| == |raws|
    ensures forall i :: 0 <= i < |raws| ==> r[i] == MapItem(raws[i])
  {
    if raws == [] then [] else [MapItem(raws[0])] + MapItems(raws[1..])
  }

  /** Mapping a concatenation maps each part; an item without `Id`, `Name`
      or `Type` comes out with empty strings for them, so a mapped item may
      have an empty name. */
  lemma {:induction false} MapItemsAppend(a: seq<RawItem>, b: seq<RawItem>)
    ensures MapItems(a + b) == MapItems(a) + MapItems(b)
  {
    if a != [] {
      MapItemsAppend(a[1..], b);
      assert (a + b)[1..] == a[1..] + b;
    }
  }

  lemma MissingFieldsBecomeEmpty(raw: RawItem)
    requires raw.id.None? && raw.name.None? && raw.itemType.None?
    ensures MapItem(raw).id == "" && MapItem(raw).name == "" && MapItem(raw).itemType == ""
  {
  }

  /** A `GET` with the flavour's token header. */
  function Get(f: Flavour, session: Session, url: string): Request {
    Request(Verb.Get, url, [AuthHeader(f, session.accessToken)])
  }

  /** `{ Items: [...] }` as a list endpoint replies; `Items` may be missing. */
  datatype ItemsBody = ItemsBody(items: Option<seq<RawItem>>, totalRecordCount: Option<Number>)

  datatype LibrariesBody = LibrariesBody(items: Option<seq<Library>>)

  /** `getLibraries`: the user's views, `[]` when `Items` is missing, and
      `[]` when the user is not logged in or the call fails. The status is
      not looked at. */
  function GetLibraries(f: Flavour, session: Session, userJson: Json<User>, reply: Fetched<LibrariesBody>): (r: Outcome<seq<Library>>)
    ensures GetUserId(f, session, userJson).Err? ==> r == Outcome(None, [])
    ensures GetUserId(f, session, userJson).Ok? ==>
      r.sent == Some(Get(f, session, session.serverUrl + "/Users/" + GetUserId(f, session, userJson).value + "/Views"))
    ensures reply.Rejected? ==> r.value == []
    ensures GetUserId(f, session, userJson).Ok? && reply.Response? ==> r.value == OrArray(reply.body.items, Some([])).value
  {
    match GetUserId(f, session, userJson)
    case Err(_) => Outcome(None, [])
    case Ok(userId) =>
      var request := Get(f, session, session.serverUrl + "/Users/" + userId + "/Views");
      match reply
      case Rejected(_) => Outcome(Some(request), [])
      case Response(_, body) => Outcome(Some(request), OrArray(body.items, Some([])).value)
  }

  /** `getContinueWatching(limit)`: the resume list, mapped. */
  function GetContinueWatching(f: Flavour, session: Session, userJson: Json<User>, limit: int, reply: Fetched<ItemsBody>): (r: Outcome<seq<MediaItem>>)
    ensures GetUserId(f, session, userJson).Err? ==> r == Outcome(None, [])
    ensures GetUserId(f, session, userJson).Ok? ==> r.sent == Some(Get(f, session,
      session.serverUrl + "/Users/" + GetUserId(f, session, userJson).value + "/Items/Resume?Limit=" + IntToString(limit)))
    ensures reply.Rejected? ==> r.value == []
    ensures GetUserId(f, session, userJson).Ok? && reply.Response? ==> r.value == MapItems(OrArray(reply.body.items, Some([])).value)
  {
    match GetUserId(f, session, userJson)
    case Err(_) => Outcome(None, [])
    case Ok(userId) =>
      var request := Get(f, session, session.serverUrl + "/Users/" + userId + "/Items/Resume?Limit=" + IntToString(limit));
      match reply
      case Rejected(_) => Outcome(Some(request), [])
      case Response(_, body) => Outcome(Some(request), MapItems(OrArray(body.items, Some([])).value))
  }

  /** `getRecentlyAdded(limit)`: the reply is the bare array; a reply that is
      not one fails inside `map` and degrades like a failed fetch. */
  function GetRecentlyAdded(f: Flavour, session: Session, userJson: Json<User>, limit: int, reply: Fetched<seq<RawItem>>): (r: Outcome<seq<MediaItem>>)
    ensures GetUserId(f, session, userJson).Err? ==> r == Outcome(None, [])
    ensures GetUserId(f, session, userJson).Ok? ==> r.sent == Some(Get(f, session,
      session.serverUrl + "/Users/" + GetUserId(f, session, userJson).value + "/Items/Latest?Limit=" + IntToString(limit)))
    ensures reply.Rejected? ==> r.value == []
    ensures GetUserId(f, session, userJson).Ok? && reply.Response? ==> r.value == MapItems(reply.body)
  {
    match GetUserId(f, session, userJson)
    case Err(_) => Outcome(None, [])
    case Ok(userId) =>
      var request := Get(f, session, session.serverUrl + "/Users/" + userId + "/Items/Latest?Limit=" + IntToString(limit));
      match reply
      case Rejected(_) => Outcome(Some(request), [])
      case Response(_, body) => Outcome(Some(request), MapItems(body))
  }

  /** A query string without escaping: `k=v` pairs joined by `&`. */
  function QueryString(params: seq<(string, string)>): string {
    if params == [] then ""
    else if |params| == 1 then params[0].0 + "=" + params[0].1
    else params[0].0 + "=" + params[0].1 + "&" + QueryString(params[1..])
  }

  /** The parameter names of a query, in order. */
  function Keys(params: seq<(string, string)>): seq<string> {
    seq(|params|, i requires 0 <= i < |params| => params[i].0)
  }

  lemma KeysAppend(a: seq<(string, string)>, b: seq<(string, string)>)
    ensures Keys(a + b) == Keys(a) + Keys(b)
  {
  }

  /** The favourites query: fixed filter, sort and the given limit. */
  function FavoritesParams(limit: int): seq<(string, string)> {
    [("Filters", "IsFavorite"), ("Recursive", "true"), ("Limit", IntToString(limit)),
     ("SortBy", "SortName"), ("SortOrder", "Ascending")]
  }

  /** `getFavorites(limit)`. */
  function GetFavorites(f: Flavour, session: Session, userJson: Json<User>, limit: int, reply: Fetched<ItemsBody>): (r: Outcome<seq<MediaItem>>)
    ensures GetUserId(f, session, userJson).Err? ==> r == Outcome(None, [])
    ensures GetUserId(f, session, userJson).Ok? ==> r.sent == Some(Get(f, session,
      session.serverUrl + "/Users/" + GetUserId(f, session, userJson).value + "/Items?" + QueryString(FavoritesParams(limit))))
    ensures reply.Rejected? ==> r.value == []
    ensures GetUserId(f, session, userJson).Ok? && reply.Response? ==> r.value == MapItems(OrArray(reply.body.items, Some([])).value)
  {
    match GetUserId(f, session, userJson)
    case Err(_) => Outcome(None, [])
    case Ok(userId) =>
      var request := Get(f, session, session.serverUrl + "/Users/" + userId + "/Items?" + QueryString(FavoritesParams(limit)));
      match reply
      case Rejected(_) => Outcome(Some(request), [])
      case Response(_, body) => Outcome(Some(request), MapItems(OrArray(body.items, Some([])).value))
  }

  /** The options of `getLibraryItems`. */
  datatype LibraryOptions = LibraryOptions(
    sortBy: Option<string>,
    sortOrder: Option<string>,
    genres: Option<seq<string>>,
    limit: Option<int>,
    startIndex: Option<int>)

  /** The six parameters every library query carries. */
  function FixedLibraryParams(libraryId: string): seq<(string, string)> {
    [("ParentId", libraryId), ("IncludeItemTypes", "Movie,Series,MusicAlbum"), ("Recursive", "true"),
     ("Fields", "PrimaryImageAspectRatio,BasicSyncInfo,ProductionYear"), ("ImageTypeLimit", "1"),
     ("EnableImageTypes", "Primary,Backdrop,Thumb")]
  }

  function When(c: bool, key: string, value: string): seq<(string, string)> {
    if c then [(key, value)] else []
  }

  /** The library query: the fixed parameters, then each option appended
      only when it is truthy. */
  function LibraryParams(libraryId: string, options: LibraryOptions): seq<(string, string)> {
    FixedLibraryParams(libraryId)
    + When(TruthyText(options.sortBy), "SortBy", options.sortBy.GetOr(""))
    + When(TruthyText(options.sortOrder), "SortOrder", options.sortOrder.GetOr(""))
    + When(options.genres.Some? && |options.genres.value| > 0, "Genres", Join(options.genres.GetOr([]), ','))
    + When(TruthyInt(options.limit), "Limit", IntToString(options.limit.GetOr(0)))
    + When(TruthyInt(options.startIndex), "StartIndex", IntToString(options.startIndex.GetOr(0)))
  }

  /** The parameter names of the library query, option by option. */
  lemma LibraryParamsKeys(libraryId: string, options: LibraryOptions)
    ensures Keys(LibraryParams(libraryId, options)) == FixedKeys
      + (if TruthyText(options.sortBy) then ["SortBy"] else [])
      + (if TruthyText(options.sortOrder) then ["SortOrder"] else [])
      + (if options.genres.Some? && |options.genres.value| > 0 then ["Genres"] else [])
      + (if TruthyInt(options.limit) then ["Limit"] else [])
      + (if TruthyInt(options.startIndex) then ["StartIndex"] else [])
  {
    var fixed := FixedLibraryParams(libraryId);
    var sortBy := When(TruthyText(options.sortBy), "SortBy", options.sortBy.GetOr(""));
    var sortOrder := When(TruthyText(options.sortOrder), "SortOrder", options.sortOrder.GetOr(""));
    var genres := When(options.genres.Some? && |options.genres.value| > 0, "Genres", Join(options.genres.GetOr([]), ','));
    var limit := When(TruthyInt(options.limit), "Limit", IntToString(options.limit.GetOr(0)));
    var start := When(TruthyInt(options.startIndex), "StartIndex", IntToString(options.startIndex.GetOr(0)));
    LibraryKeys(fixed, sortBy, sortOrder, genres, limit, start);
    FixedKeysOf(libraryId);
    WhenKeys(TruthyText(options.sortBy), "SortBy", options.sortBy.GetOr(""));
    WhenKeys(TruthyText(options.sortOrder), "SortOrder", options.sortOrder.GetOr(""));
    WhenKeys(options.genres.Some? && |options.genres.value| > 0, "Genres", Join(options.genres.GetOr([]), ','));
    WhenKeys(TruthyInt(options.limit), "Limit", IntToString(options.limit.GetOr(0)));
    WhenKeys(TruthyInt(options.startIndex), "StartIndex", IntToString(options.startIndex.GetOr(0)));
  }

  /** Each optional parameter is sent exactly when its option is truthy,
      so a start index of 0 and an empty genre list are not sent. */
  lemma LibraryParamsSpec(libraryId: string, options: LibraryOptions)
    ensures var keys := Keys(LibraryParams(libraryId, options));
      && ("SortBy" in keys <==> TruthyText(options.sortBy))
      && ("SortOrder" in keys <==> TruthyText(options.sortOrder))
      && ("Genres" in keys <==> options.genres.Some? && |options.genres.value| > 0)
      && ("Limit" in keys <==> TruthyInt(options.limit))
      && ("StartIndex" in keys <==> TruthyInt(options.startIndex))
  {
    LibraryParamsKeys(libraryId, options);
    assert "SortBy" !in FixedKeys && "SortOrder" !in FixedKeys && "Genres" !in FixedKeys;
    assert "Limit" !in FixedKeys && "StartIndex" !in FixedKeys;
    OptionalKeys(FixedKeys, TruthyText(options.sortBy), TruthyText(options.sortOrder),
      options.genres.Some? && |options.genres.value| > 0, TruthyInt(options.limit), TruthyInt(options.startIndex));
  }

  /** Each optional name is among the keys exactly when it was switched on. */
  lemma OptionalKeys(fixed: seq<string>, sortBy: bool, sortOrder: bool, genres: bool, limit: bool, start: bool)
    requires "SortBy" !in fixed && "SortOrder" !in fixed && "Genres" !in fixed
    requires "Limit" !in fixed && "StartIndex" !in fixed
    ensures var keys := fixed
      + (if sortBy then ["SortBy"] else []) + (if sortOrder then ["SortOrder"] else [])
      + (if genres then ["Genres"] else []) + (if limit then ["Limit"] else [])
      + (if start then ["StartIndex"] else []);
      && ("SortBy" in keys <==> sortBy) && ("SortOrder" in keys <==> sortOrder)
      && ("Genres" in keys <==> genres) && ("Limit" in keys <==> limit)
      && ("StartIndex" in keys <==> start)
  {
    OptionalKey(fixed, sortBy, sortOrder, genres, limit, start, "SortBy");
    OptionalKey(fixed, sortBy, sortOrder, genres, limit, start, "SortOrder");
    OptionalKey(fixed, sortBy, sortOrder, genres, limit, start, "Genres");
    OptionalKey(fixed, sortBy, sortOrder, genres, limit, start, "Limit");
    OptionalKey(fixed, sortBy, sortOrder, genres, limit, start, "StartIndex");
  }

  lemma OptionalKey(fixed: seq<string>, sortBy: bool, sortOrder: bool, genres: bool, limit: bool, start: bool, n: string)
    ensures var keys := fixed
      + (if sortBy then ["SortBy"] else []) + (if sortOrder then ["SortOrder"] else [])
      + (if genres then ["Genres"] else []) + (if limit then ["Limit"] else [])
      + (if start then ["StartIndex"] else []);
      n in keys <==> (n in fixed || (sortBy && n == "SortBy") || (sortOrder && n == "SortOrder")
                      || (genres && n == "Genres") || (limit && n == "Limit") || (start && n == "StartIndex"))
  {
    var a := fixed + (if sortBy then ["SortBy"] else []);
    var b := a + (if sortOrder then ["SortOrder"] else []);
    var c := b + (if genres then ["Genres"] else []);
    var d := c + (if limit then ["Limit"] else []);
    InMaybe(fixed, sortBy, "SortBy", n);
    InMaybe(a, sortOrder, "SortOrder", n);
    InMaybe(b, genres, "Genres", n);
    InMaybe(c, limit, "Limit", n);
    InMaybe(d, start, "StartIndex", n);
  }

  lemma InMaybe<T>(front: seq<T>, on: bool, x: T, n: T)
    ensures n in front + (if on then [x] else []) <==> n in front || (on && n == x)
  {
  }

  /** The query starts with the six fixed parameters, and a non-empty genre
      list is sent comma-joined. */
  lemma LibraryParamsFixed(libraryId: string, options: LibraryOptions)
    ensures var r := LibraryParams(libraryId, options);
      && |r| >= 6 && r[..6] == FixedLibraryParams(libraryId)
      && (options.genres.Some? && |options.genres.value| > 0 ==> ("Genres", Join(options.genres.value, ',')) in r)
  {
    var r := LibraryParams(libraryId, options);
    var fixed := FixedLibraryParams(libraryId);
    var sortBy := When(TruthyText(options.sortBy), "SortBy", options.sortBy.GetOr(""));
    var sortOrder := When(TruthyText(options.sortOrder), "SortOrder", options.sortOrder.GetOr(""));
    var genres := When(options.genres.Some? && |options.genres.value| > 0, "Genres", Join(options.genres.GetOr([]), ','));
    assert r[..6] == fixed;
    if options.genres.Some? && |options.genres.value| > 0 {
      assert r[|fixed| + |sortBy| + |sortOrder|] == genres[0];
    }
  }

  lemma WhenKeys(c: bool, key: string, value: string)
    ensures Keys(When(c, key, value)) == if c then [key] else []
  {
  }

  lemma FixedKeysOf(libraryId: string)
    ensures Keys(FixedLibraryParams(libraryId)) == FixedKeys
  {
  }

  const FixedKeys: seq<string> :=
    ["ParentId", "IncludeItemTypes", "Recursive", "Fields", "ImageTypeLimit", "EnableImageTypes"]

  lemma LibraryKeys(fixed: seq<(string, string)>, a: seq<(string, string)>, b: seq<(string, string)>,
                    c: seq<(string, string)>, d: seq<(string, string)>, e: seq<(string, string)>)
    ensures Keys(fixed + a + b + c + d + e) == Keys(fixed) + Keys(a) + Keys(b) + Keys(c) + Keys(d) + Keys(e)
  {
    KeysAppend(fixed, a);
    KeysAppend(fixed + a, b);
    KeysAppend(fixed + a + b, c);
    KeysAppend(fixed + a + b + c, d);
    KeysAppend(fixed + a + b + c + d, e);
  }

  /** A page of a library: `items` and `totalCount`. */
  datatype ItemPage = ItemPage(items: seq<MediaItem>, totalCount: Number)

  /** `getLibraryItems`: `TotalRecordCount || 0` alongside the mapped
      items; `{[], 0}` when not logged in or on any failure. */
  function GetLibraryItems(f: Flavour, session: Session, userJson: Json<User>, libraryId: string,
                           options: LibraryOptions, reply: Fetched<ItemsBody>): (r: Outcome<ItemPage>)
    ensures GetUserId(f, session, userJson).Err? ==> r == Outcome(None, ItemPage([], 0.0))
    ensures GetUserId(f, session, userJson).Ok? ==> r.sent == Some(Get(f, session,
      session.serverUrl + "/Users/" + GetUserId(f, session, userJson).value + "/Items?" + QueryString(LibraryParams(libraryId, options))))
    ensures reply.Rejected? ==> r.value == ItemPage([], 0.0)
    ensures GetUserId(f, session, userJson).Ok? && reply.Response? ==>
      && r.value.items == MapItems(OrArray(reply.body.items, Some([])).value)
      && r.value.totalCount == OrNumber(reply.body.totalRecordCount, Some(0.0)).value
  {
    match GetUserId(f, session, userJson)
    case Err(_) => Outcome(None, ItemPage([], 0.0))
    case Ok(userId) =>
      var request := Get(f, session, session.serverUrl + "/Users/" + userId + "/Items?" + QueryString(LibraryParams(libraryId, options)));
      match reply
      case Rejected(_) => Outcome(Some(request), ItemPage([], 0.0))
      case Response(_, body) =>
        Outcome(Some(request), ItemPage(MapItems(OrArray(body.items, Some([])).value), OrNumber(body.totalRecordCount, Some(0.0)).value))
  }

  /** `getItemById`: `null` unless logged in and the reply is 2xx; the one
      item is mapped like a list element. */
  function GetItemById(f: Flavour, session: Session, userJson: Json<User>, itemId: string, reply: Fetched<RawItem>): (r: Outcome<Option<MediaItem>>)
    ensures r.value.Some? <==> GetUserId(f, session, userJson).Ok? && reply.Ok()
    ensures r.value.Some? ==> r.value.value == MapItems([reply.body])[0]
    ensures GetUserId(f, session, userJson).Ok? <==> r.sent.Some?
    ensures r.sent.Some? ==> r.sent.value.url == session.serverUrl + "/Users/" + GetUserId(f, session, userJson).value + "/Items/" + itemId
  {
    match GetUserId(f, session, userJson)
    case Err(_) => Outcome(None, None)
    case Ok(userId) =>
      var request := Get(f, session, session.serverUrl + "/Users/" + userId + "/Items/" + itemId);
      if reply.Ok() then Outcome(Some(request), Some(MapItem(reply.body))) else Outcome(Some(request), None)
  }

  /** `toggleFavorite`: DELETE when the item is a favourite, POST when it is
      not; resolves with `response.ok`, and with `false` on any failure. */
  function ToggleFavorite(f: Flavour, session: Session, userJson: Json<User>, itemId: string, isFavorite: bool, reply: Fetched<()>): (r: Outcome<bool>)
    ensures r.sent.Some? <==> GetUserId(f, session, userJson).Ok?
    ensures r.sent.Some? ==>
      && (r.sent.value.verb == Verb.Delete <==> isFavorite)
      && (r.sent.value.verb == Verb.Post <==> !isFavorite)
      && r.sent.value.url == session.serverUrl + "/Users/" + GetUserId(f, session, userJson).value + "/FavoriteItems/" + itemId
      && r.sent.value.headers == [AuthHeader(f, session.accessToken)]
    ensures r.value <==> r.sent.Some? && reply.Ok()
  {
    match GetUserId(f, session, userJson)
    case Err(_) => Outcome(None, false)
    case Ok(userId) =>
      var verb := if isFavorite then Verb.Delete else Verb.Post;
      Outcome(Some(Request(verb, session.serverUrl + "/Users/" + userId + "/FavoriteItems/" + itemId,
                           [AuthHeader(f, session.accessToken)])), reply.Ok())
  }

  /** Toggling twice with the reported state sends opposite verbs. */
  lemma ToggleTwiceOpposes(f: Flavour, session: Session, userJson: Json<User>, itemId: string, isFavorite: bool, reply: Fetched<()>)
    requires GetUserId(f, session, userJson).Ok?
    ensures ToggleFavorite(f, session, userJson, itemId, isFavorite, reply).sent.value.verb
         != ToggleFavorite(f, session, userJson, itemId, !isFavorite, reply).sent.value.verb
  {
  }

  /** `Math.floor(positionSeconds * 10000000)`. */
  function PositionTicks(positionSeconds: Number): (ticks: int)
    ensures ticks as real <= positionSeconds * 10000000.0 < ticks as real + 1.0
  {
    (positionSeconds * 10000000.0).Floor
  }

  /** Whole ticks convert back to the seconds they came from. */
  lemma PositionTicksExact(ticks: int)
    ensures PositionTicks(ticks as real / 10000000.0) == ticks
  {
  }

  /** The JSON body of a playback report; `isPaused` is absent from the
      stopped report. */
  datatype PlaybackReport = PlaybackReport(itemId: string, positionTicks: int, isPaused: Option<bool>)

  /** A JSON `POST` with the bearer token. */
  function PostJson(session: Session, url: string): Request {
    Request(Verb.Post, url, [AuthHeader(MediaServer, session.accessToken), ("Content-Type", "application/json")])
  }

  /** `reportPlaybackProgress`: no user id is needed; resolves with
      `response.ok`, `false` on failure. */
  function ReportPlaybackProgress(session: Session, itemId: string, positionSeconds: Number, isPaused: bool, reply: Fetched<()>)
    : (r: (Outcome<bool>, PlaybackReport))
    ensures r.0.sent == Some(PostJson(session, session.serverUrl + "/Sessions/Playing/Progress"))
    ensures r.1 == PlaybackReport(itemId, PositionTicks(positionSeconds), Some(isPaused))
    ensures r.0.value <==> reply.Ok()
  {
    (Outcome(Some(PostJson(session, session.serverUrl + "/Sessions/Playing/Progress")), reply.Ok()),
     PlaybackReport(itemId, PositionTicks(positionSeconds), Some(isPaused)))
  }

  /** `reportPlaybackStopped`: the same conversion of the position. */
  function ReportPlaybackStopped(session: Session, itemId: string, positionSeconds: Number, reply: Fetched<()>)
    : (r: (Outcome<bool>, PlaybackReport))
    ensures r.0.sent == Some(PostJson(session, session.serverUrl + "/Sessions/Playing/Stopped"))
    ensures r.1 == PlaybackReport(itemId, PositionTicks(positionSeconds), None)
    ensures r.0.value <==> reply.Ok()
  {
    (Outcome(Some(PostJson(session, session.serverUrl + "/Sessions/Playing/Stopped")), reply.Ok()),
     PlaybackReport(itemId, PositionTicks(positionSeconds), None))
  }

  /** `markAsPlayed`. */
  function MarkAsPlayed(session: Session, userJson: Json<User>, itemId: string, reply: Fetched<()>): (r: Outcome<bool>)
    ensures r.sent.Some? <==> GetUserId(MediaServer, session, userJson).Ok?
    ensures r.sent.Some? ==> r.sent.value == Request(Verb.Post,
      session.serverUrl + "/Users/" + GetUserId(MediaServer, session, userJson).value + "/PlayedItems/" + itemId,
      [AuthHeader(MediaServer, session.accessToken)])
    ensures r.value <==> r.sent.Some? && reply.Ok()
  {
    match GetUserId(MediaServer, session, userJson)
    case Err(_) => Outcome(None, false)
    case Ok(userId) =>
      Outcome(Some(Request(Verb.Post, session.serverUrl + "/Users/" + userId + "/PlayedItems/" + itemId,
                           [AuthHeader(MediaServer, session.accessToken)])), reply.Ok())
  }

  /** Without a stored user record every user-scoped call sends nothing and
      degrades: `[]`, `{[], 0}`, `null` or `false`. */
  lemma NotLoggedInDegrades(f: Flavour, session: Session, userJson: Json<User>, limit: int, libraryId: string, itemId: string,
                            options: LibraryOptions, isFavorite: bool, libs: Fetched<LibrariesBody>, list: Fetched<ItemsBody>,
                            latest: Fetched<seq<RawItem>>, one: Fetched<RawItem>, done: Fetched<()>)
    requires UserKey(f) !in session.storage
    ensures GetLibraries(f, session, userJson, libs) == Outcome(None, [])
    ensures GetContinueWatching(f, session, userJson, limit, list) == Outcome(None, [])
    ensures GetRecentlyAdded(f, session, userJson, limit, latest) == Outcome(None, [])
    ensures GetFavorites(f, session, userJson, limit, list) == Outcome(None, [])
    ensures GetLibraryItems(f, session, userJson, libraryId, options, list) == Outcome(None, ItemPage([], 0.0))
    ensures GetItemById(f, session, userJson, itemId, one) == Outcome(None, None)
    ensures ToggleFavorite(f, session, userJson, itemId, isFavorite, done) == Outcome(None, false)
  {
  }

  /** The two clients differ only in where they keep the user record and
      how they send the token: the same session and replies give the same
      results and the same URLs. */
  lemma FlavoursAgree(session: Session, userJson: Json<User>, libraryId: string, options: LibraryOptions,
                      itemId: string, isFavorite: bool, list: Fetched<ItemsBody>, one: Fetched<RawItem>, done: Fetched<()>)
    requires UserKey(MediaServer) in session.storage && UserKey(Jellyfin) in session.storage
    requires session.storage[UserKey(MediaServer)] == session.storage[UserKey(Jellyfin)]
    ensures GetLibraryItems(MediaServer, session, userJson, libraryId, options, list).value
         == GetLibraryItems(Jellyfin, session, userJson, libraryId, options, list).value
    ensures GetItemById(MediaServer, session, userJson, itemId, one).value
         == GetItemById(Jellyfin, session, userJson, itemId, one).value
    ensures ToggleFavorite(MediaServer, session, userJson, itemId, isFavorite, done).value
         == ToggleFavorite(Jellyfin, session, userJson, itemId, isFavorite, done).value
    ensures AuthHeader(Jellyfin, session.accessToken) == ("X-Emby-Token", session.accessToken)
    ensures AuthHeader(MediaServer, session.accessToken) == ("Authorization", "Bearer " + session.accessToken)
  {
  }
}
