/** The request handlers of the mock server the web client runs against in
    development (src/mocks/handlers.ts). The fixture arrays the handlers
    serve are not part of this model: they are an input, `Fixtures`. A
    handler is a function from the fixtures and the parts of the request it
    reads to its reply. */
module MockHandlers {
  import opened Js
  import opened Text
  import opened ApiTypes
  import opened Lists
  import Auth
  import BitHarbor
  import MockImages

  /** The fixture data the handlers serve. */
  datatype Fixtures = Fixtures(
    user: User,
    accessToken: string,
    libraries: seq<Library>,
    continueWatching: seq<MediaItem>,
    recentlyAdded: seq<MediaItem>,
    favorites: seq<MediaItem>,
    movies: seq<MediaItem>,
    tvShows: seq<MediaItem>,
    tvEpisodes: seq<MediaItem>,
    musicAlbums: seq<MediaItem>,
    musicTracks: seq<MediaItem>,
    videos: seq<MediaItem>,
    podcasts: seq<MediaItem>,
    personal: seq<MediaItem>)

  /** A handler's reply: a 200 with its JSON body, a 401 or a 404. */
  datatype Reply<T> = Ok200(body: T) | Unauthorized | NotFound

  const BearerPrefix := "Bearer "

  /** `validateBearerToken`: the `Authorization` header is present, starts
      with `Bearer ` and continues with the fixture token. */
  function ValidateBearerToken(header: Option<string>, token: string): bool {
    if !TruthyText(header) then false
    else if !StartsWith(header.value, BearerPrefix) then false
    else header.value[7..] == token
  }

  /** The check accepts exactly one header value: `Bearer ` followed by the
      token, with the prefix matched case-sensitively, although section 2.1
      of RFC 7235 treats the scheme name as case-insensitive. */
  lemma ValidateBearerTokenIff(header: Option<string>, token: string)
    ensures ValidateBearerToken(header, token) <==> header == Some(BearerPrefix + token)
  {
    if header == Some(BearerPrefix + token) {
      var h := header.value;
      assert h[..7] == BearerPrefix;
      assert h[7..] == token;
    }
    if ValidateBearerToken(header, token) {
      var h := header.value;
      assert h == h[..7] + h[7..];
    }
  }

  /** `getMediaItemsByType`: the fixtures of one media type; tv joins shows
      and episodes, music joins albums and tracks, any other name has none. */
  function ItemsByType(f: Fixtures, typeName: string): seq<MediaItem> {
    if typeName == "movie" then f.movies
    else if typeName == "tv" then f.tvShows + f.tvEpisodes
    else if typeName == "music" then f.musicAlbums + f.musicTracks
    else if typeName == "podcast" then f.podcasts
    else if typeName == "video" then f.videos
    else if typeName == "personal" then f.personal
    else []
  }

  /** Only the six media-type names select fixtures. */
  lemma ItemsOnlyForMediaTypes(f: Fixtures, typeName: string)
    ensures ParseMediaType(typeName).None? ==> ItemsByType(f, typeName) == []
    ensures typeName == "tv" ==> ItemsByType(f, typeName) == f.tvShows + f.tvEpisodes
    ensures typeName == "music" ==> ItemsByType(f, typeName) == f.musicAlbums + f.musicTracks
  {
  }

  /** `transformToMediaDetail`: the wire record of a fixture item. The
      running time goes back from ticks to seconds when it is truthy. */
  function TransformToMediaDetail(item: MediaItem): (d: MediaDetail)
    ensures d.mediaId == item.id && d.title == item.name
    ensures d.vectorHash == "vector_" + item.id && d.fileHash == Some("file_" + item.id)
    ensures d.sourceType == (if TruthyText(item.sourceType) then item.sourceType.value else "catalog")
    ensures d.mediaType == (if item.itemType != "" then item.itemType else item.mediaType.GetOr(""))
    ensures d.enriched.None? && d.metadata.Some?
  {
    MediaDetail(
      item.id,
      if item.itemType != "" then item.itemType else item.mediaType.GetOr(""),
      item.name,
      OrText(item.sourceType, Some("catalog")).value,
      "vector_" + item.id,
      Some("file_" + item.id),
      Some(DetailMetadata(item)),
      None)
  }

  /** The `metadata` record of the wire record. */
  function DetailMetadata(item: MediaItem): Metadata {
    EmptyMetadata.(
      title := Some(item.name), description := item.overview, year := item.productionYear,
      rating := item.communityRating, contentRating := item.officialRating, genres := item.genres,
      durationSeconds := if TruthyNumber(item.runTimeTicks) then Some(item.runTimeTicks.value / BitHarbor.TicksPerSecond) else None,
      originalTitle := item.originalTitle, releaseDate := item.releaseDate,
      runtimeMinutes := item.runtimeMinutes, cast := item.cast, director := item.director,
      seriesName := item.seriesName, seasonNumber := item.seasonNumber,
      episodeNumber := item.episodeNumber, airDate := item.airDate,
      artist := item.artist, album := item.album, albumArtist := item.albumArtist,
      trackNumber := item.trackNumber, discNumber := item.discNumber, duration := item.duration,
      showName := item.showName, pubDate := item.pubDate, episodeTitle := item.episodeTitle,
      captureDate := item.captureDate, deviceMake := item.deviceMake, deviceModel := item.deviceModel,
      gpsLat := item.gpsLat, gpsLon := item.gpsLon, albumName := item.albumName,
      platform := item.platform, channelName := item.channelName, uploader := item.uploader)
  }

  /** Serving a fixture item and reading it back through the BitHarbor
      adapter's `transformMediaItem` gives back the item's identity, name
      (or 'Unknown' for an empty one), description, ratings, year, genres,
      running time and per-type fields. */
  lemma {:induction false} DetailRoundTrip(item: MediaItem)
    ensures var r := BitHarbor.TransformMediaItem(TransformToMediaDetail(item));
            && r.id == item.id
            && r.name == (if item.name != "" then item.name else "Unknown")
            && r.overview == KeepText(item.overview)
            && r.productionYear == item.productionYear
            && r.communityRating == item.communityRating
            && r.officialRating == item.officialRating
            && r.genres == Some(item.genres.GetOr([]))
            && r.runTimeTicks == KeepNumber(item.runTimeTicks)
            && r.seriesName == item.seriesName && r.episodeNumber == item.episodeNumber
            && r.seasonNumber == item.seasonNumber && r.director == item.director
            && r.artist == item.artist && r.album == item.album && r.cast == item.cast
  {
    var d := TransformToMediaDetail(item);
    var meta := DetailMetadata(item);
    assert BitHarbor.MetaOf(d) == meta;
    var b := BitHarbor.BaseItem(d, meta);
    assert BitHarbor.TransformMediaItem(d) == BitHarbor.ApplyFlat(b, meta);
    if TruthyNumber(item.runTimeTicks) {
      var t := item.runTimeTicks.value;
      assert t / BitHarbor.TicksPerSecond * BitHarbor.TicksPerSecond == t;
      assert t / BitHarbor.TicksPerSecond != 0.0;
    }
  }

  /** The search filter: the lower-cased name, or a non-empty lower-cased
      overview, contains the lower-cased query. */
  predicate Matches(item: MediaItem, query: string) {
    var q := ToLower(query);
    Contains(ToLower(item.name), q)
    || (TruthyText(item.overview) && Contains(ToLower(item.overview.value), q))
  }

  /** The hit a type search reports for an item. */
  function Hit(t: MediaType, item: MediaItem): SearchResult {
    SearchResult(item.id, 0.95, TypeName(t), item.name, None)
  }

  /** `POST /api/v1/{route}/search`: the first `k || 20` matching fixtures of
      the route's type, each with score 0.95. */
  function Search(f: Fixtures, t: MediaType, header: Option<string>, query: string, k: Option<int>): (r: Reply<SearchResponse>)
    ensures r.Unauthorized? <==> !ValidateBearerToken(header, f.accessToken)
    ensures !r.NotFound?
    ensures r.Ok200? ==> forall i :: 0 <= i < |r.body.results| ==>
              r.body.results[i].score == 0.95 && r.body.results[i].mediaType == TypeName(t)
              && r.body.results[i].previewUrl.None?
  {
    if !ValidateBearerToken(header, f.accessToken) then Unauthorized
    else
      var matched := Filter(ItemsByType(f, TypeName(t)), item => Matches(item, query));
      var kept := JsSlice(matched, 0, if TruthyInt(k) then k.value else 20);
      Ok200(SearchResponse(seq(|kept|, i requires 0 <= i < |kept| => Hit(t, kept[i]))))
  }

  /** Every search hit names a fixture of the route's type that matches the
      query. */
  lemma SearchSound(f: Fixtures, t: MediaType, token: string, query: string, k: Option<int>, i: int)
    requires Search(f, t, Some(BearerPrefix + token), query, k).Ok200?
    requires 0 <= i < |Search(f, t, Some(BearerPrefix + token), query, k).body.results|
    ensures var hit := Search(f, t, Some(BearerPrefix + token), query, k).body.results[i];
            exists item :: item in ItemsByType(f, TypeName(t)) && Matches(item, query)
                           && hit.mediaId == item.id && hit.title == item.name
  {
    var matched := Filter(ItemsByType(f, TypeName(t)), item => Matches(item, query));
    var kept := JsSlice(matched, 0, if TruthyInt(k) then k.value else 20);
    var hit := Search(f, t, Some(BearerPrefix + token), query, k).body.results[i];
    assert hit == Hit(t, kept[i]);
    assert kept[i] in matched;
    assert kept[i] in ItemsByType(f, TypeName(t)) && Matches(kept[i], query);
  }

  /** With a positive (or missing) `k`, the search returns exactly
      `min(k || 20, matches)` hits, in fixture order; when every match fits,
      every matching fixture is reported. */
  lemma SearchTruncates(f: Fixtures, t: MediaType, header: Option<string>, query: string, k: Option<int>)
    requires ValidateBearerToken(header, f.accessToken)
    requires k.None? || k.value >= 0
    ensures var kk := if TruthyInt(k) then k.value else 20;
            var matched := Filter(ItemsByType(f, TypeName(t)), item => Matches(item, query));
            var results := Search(f, t, header, query, k).body.results;
            && |results| == (if kk < |matched| then kk else |matched|)
            && (forall i :: 0 <= i < |results| ==> results[i] == Hit(t, matched[i]))
  {
    var kk := if TruthyInt(k) then k.value else 20;
    var matched := Filter(ItemsByType(f, TypeName(t)), item => Matches(item, query));
    SliceFromStart(matched, kk);
  }

  /** The body of a type listing. */
  datatype MediaListResponse = MediaListResponse(items: seq<MediaDetail>, total: int)

  /** `GET /api/v1/{route}/media`: the window `[offset, offset + limit)` of
      the type's fixtures (20 and 0 when the parameters are absent), with
      `total` counting all of them. */
  function ListMedia(f: Fixtures, t: MediaType, header: Option<string>, limit: Option<int>, offset: Option<int>): (r: Reply<MediaListResponse>)
    ensures r.Unauthorized? <==> !ValidateBearerToken(header, f.accessToken)
    ensures !r.NotFound?
    ensures r.Ok200? ==> r.body.total == |ItemsByType(f, TypeName(t))| && |r.body.items| <= r.body.total
  {
    if !ValidateBearerToken(header, f.accessToken) then Unauthorized
    else
      var items := ItemsByType(f, TypeName(t));
      var start := offset.GetOr(0);
      var page := JsSlice(items, start, start + limit.GetOr(20));
      Ok200(MediaListResponse(Details(page), |items|))
  }

  /** `page.map(transformToMediaDetail)` */
  function Details(page: seq<MediaItem>): (r: seq<MediaDetail>)
    ensures |r| == |page|
  {
    seq(|page|, i requires 0 <= i < |page| => TransformToMediaDetail(page[i]))
  }

  /** Mapping a concatenation maps each part. */
  lemma DetailsAppend(x: seq<MediaItem>, y: seq<MediaItem>)
    ensures Details(x + y) == Details(x) + Details(y)
  {
    assert forall i :: 0 <= i < |y| ==> Details(x + y)[|x| + i] == Details(y)[i];
  }

  /** A window with a non-negative offset and limit holds the fixtures from
      `offset` on, at most `limit` of them. */
  lemma ListWindow(f: Fixtures, t: MediaType, header: Option<string>, limit: nat, offset: nat)
    requires ValidateBearerToken(header, f.accessToken)
    ensures var all := ItemsByType(f, TypeName(t));
            var items := ListMedia(f, t, header, Some(limit), Some(offset)).body.items;
            && |items| == (if offset >= |all| then 0 else if offset + limit <= |all| then limit else |all| - offset)
            && forall i :: 0 <= i < |items| ==> items[i] == TransformToMediaDetail(all[offset + i])
  {
  }

  /** Two consecutive windows list the same fixtures, in the same order, as
      one window of their combined size: paging loses and repeats nothing. */
  lemma ListPagesTile(f: Fixtures, t: MediaType, header: Option<string>, offset: nat, a: nat, b: nat)
    requires ValidateBearerToken(header, f.accessToken)
    ensures ListMedia(f, t, header, Some(a), Some(offset)).body.items
            + ListMedia(f, t, header, Some(b), Some(offset + a)).body.items
            == ListMedia(f, t, header, Some(a + b), Some(offset)).body.items
  {
    var all := ItemsByType(f, TypeName(t));
    var x, y := JsSlice(all, offset, offset + a), JsSlice(all, offset + a, offset + a + b);
    calc {
      ListMedia(f, t, header, Some(a), Some(offset)).body.items
        + ListMedia(f, t, header, Some(b), Some(offset + a)).body.items;
    == { ListPage(f, t, header, a, offset); ListPage(f, t, header, b, offset + a); }
      Details(x) + Details(y);
    == { DetailsAppend(x, y); }
      Details(x + y);
    == { SlicesTile(all, offset, a, b); }
      Details(JsSlice(all, offset, offset + a + b));
    == { ListPage(f, t, header, a + b, offset); }
      ListMedia(f, t, header, Some(a + b), Some(offset)).body.items;
    }
  }

  /** A listing with a valid token shows the details of its window. */
  lemma ListPage(f: Fixtures, t: MediaType, header: Option<string>, limit: nat, offset: nat)
    requires ValidateBearerToken(header, f.accessToken)
    ensures ListMedia(f, t, header, Some(limit), Some(offset)).body.items
            == Details(JsSlice(ItemsByType(f, TypeName(t)), offset, offset + limit))
  {
  }

  /** `GET /api/v1/{route}/media/{id}`: the first fixture of the type with
      that id, or 404. */
  function GetDetail(f: Fixtures, t: MediaType, header: Option<string>, mediaId: string): (r: Reply<MediaDetail>)
    ensures r.Unauthorized? <==> !ValidateBearerToken(header, f.accessToken)
    ensures r.NotFound? <==> ValidateBearerToken(header, f.accessToken)
                             && forall item :: item in ItemsByType(f, TypeName(t)) ==> item.id != mediaId
    ensures r.Ok200? ==> r.body.mediaId == mediaId
                         && exists item :: item in ItemsByType(f, TypeName(t)) && r.body == TransformToMediaDetail(item)
  {
    if !ValidateBearerToken(header, f.accessToken) then Unauthorized
    else
      match Find(ItemsByType(f, TypeName(t)), (i: MediaItem) => i.id == mediaId)
      case Some(item) => Ok200(TransformToMediaDetail(item))
      case None => NotFound
  }

  /** The typed detail is that of the first fixture of the type, in list
      order, that has the id. */
  lemma GetDetailIsFirst(f: Fixtures, t: MediaType, header: Option<string>, mediaId: string) returns (n: nat)
    requires GetDetail(f, t, header, mediaId).Ok200?
    ensures var items := ItemsByType(f, TypeName(t));
            && n < |items| && GetDetail(f, t, header, mediaId).body == TransformToMediaDetail(items[n])
            && forall j :: 0 <= j < n ==> items[j].id != mediaId
  {
    n := FindFirst(ItemsByType(f, TypeName(t)), (i: MediaItem) => i.id == mediaId);
  }

  /** The adapter's typed `getMediaById`, fed the mock's 200 reply, finds the
      item under the id it asked for, named as the fixture is. */
  lemma DetailThroughAdapter(f: Fixtures, t: MediaType, header: Option<string>, mediaId: string)
    requires GetDetail(f, t, header, mediaId).Ok200?
    ensures var item := BitHarbor.LookupOfType(Response(200, GetDetail(f, t, header, mediaId).body));
            item == Ok(Some(BitHarbor.TransformMediaItem(GetDetail(f, t, header, mediaId).body)))
            && item.value.value.id == mediaId
  {
  }

  /** `GET /api/v1/{route}/media/{id}/stream`: the content type of the
      stream; audio for music and podcasts, video otherwise. */
  function StreamContentType(f: Fixtures, t: MediaType, header: Option<string>): (r: Reply<string>)
    ensures r.Unauthorized? <==> !ValidateBearerToken(header, f.accessToken)
    ensures r.Ok200? ==> (r.body == "audio/mpeg" <==> t in {Music, Podcast})
    ensures r.Ok200? ==> r.body in {"audio/mpeg", "video/mp4"}
  {
    if !ValidateBearerToken(header, f.accessToken) then Unauthorized
    else Ok200(if t == Music || t == Podcast then "audio/mpeg" else "video/mp4")
  }

  /** `POST /Users/AuthenticateByName`: any truthy user name with a password
      field present is accepted, and the fixture session is returned. */
  function AuthenticateByName(f: Fixtures, username: Option<string>, pw: Option<string>): (r: Reply<Auth.LegacyAuthResponse>)
    ensures r.Ok200? <==> TruthyText(username) && pw.Some?
    ensures !r.Ok200? ==> r.Unauthorized?
    ensures r.Ok200? ==> r.body.user == f.user && r.body.accessToken == f.accessToken
                         && r.body.serverId == f.user.serverId
  {
    if TruthyText(username) && pw.Some? then Ok200(Auth.LegacyAuthResponse(f.user, f.accessToken, f.user.serverId))
    else Unauthorized
  }

  /** The token a successful authentication hands out passes the check of
      every authenticated endpoint. */
  lemma AuthenticatedTokenValidates(f: Fixtures, username: Option<string>, pw: Option<string>)
    requires AuthenticateByName(f, username, pw).Ok200?
    ensures ValidateBearerToken(Some(BearerPrefix + AuthenticateByName(f, username, pw).body.accessToken), f.accessToken)
  {
    ValidateBearerTokenIff(Some(BearerPrefix + f.accessToken), f.accessToken);
  }

  /** The legacy library ids, one per media type. */
  function LibraryIdOf(t: MediaType): string {
    match t
    case Movie => "mock-library-movies"
    case Tv => "mock-library-tvshows"
    case Music => "mock-library-music"
    case Video => "mock-library-videos"
    case Podcast => "mock-library-podcasts"
    case Personal => "mock-library-personal"
  }

  /** The fixtures of a legacy library; an unknown id has none. */
  function LibraryItems(f: Fixtures, parentId: Option<string>): seq<MediaItem> {
    if parentId == Some("mock-library-movies") then f.movies
    else if parentId == Some("mock-library-tvshows") then f.tvShows + f.tvEpisodes
    else if parentId == Some("mock-library-music") then f.musicAlbums + f.musicTracks
    else if parentId == Some("mock-library-videos") then f.videos
    else if parentId == Some("mock-library-podcasts") then f.podcasts
    else if parentId == Some("mock-library-personal") then f.personal
    else []
  }

  /** The body of a legacy listing. */
  datatype LegacyPage = LegacyPage(items: seq<MediaItem>, totalRecordCount: int)

  /** The body of the legacy library listing. */
  datatype LibraryPage = LibraryPage(items: seq<Library>, totalRecordCount: int)

  /** `GET /Users/{userId}/Views`: every library fixture, counted. */
  function LegacyViews(f: Fixtures, header: Option<string>): (r: Reply<LibraryPage>)
    ensures r.Unauthorized? <==> !ValidateBearerToken(header, f.accessToken)
    ensures !r.NotFound?
    ensures r.Ok200? ==> r.body.items == f.libraries && r.body.totalRecordCount == |r.body.items|
  {
    if !ValidateBearerToken(header, f.accessToken) then Unauthorized
    else Ok200(LibraryPage(f.libraries, |f.libraries|))
  }

  /** `GET /Users/{userId}/Items/Resume`: the continue-watching fixtures,
      counted. */
  function LegacyResume(f: Fixtures, header: Option<string>): (r: Reply<LegacyPage>)
    ensures r.Unauthorized? <==> !ValidateBearerToken(header, f.accessToken)
    ensures !r.NotFound?
    ensures r.Ok200? ==> r.body.items == f.continueWatching && r.body.totalRecordCount == |r.body.items|
  {
    if !ValidateBearerToken(header, f.accessToken) then Unauthorized
    else Ok200(LegacyPage(f.continueWatching, |f.continueWatching|))
  }

  /** `GET /Users/{userId}/Items/Latest`: the recently-added fixtures, as a
      bare array. */
  function LegacyLatest(f: Fixtures, header: Option<string>): (r: Reply<seq<MediaItem>>)
    ensures r.Unauthorized? <==> !ValidateBearerToken(header, f.accessToken)
    ensures !r.NotFound?
    ensures r.Ok200? ==> r.body == f.recentlyAdded
  {
    if !ValidateBearerToken(header, f.accessToken) then Unauthorized
    else Ok200(f.recentlyAdded)
  }

  /** With the token a login hands out, the home-screen listings all answer:
      the libraries, the continue-watching list and the recently-added list,
      each as the fixtures hold them. */
  lemma SignedInHomeLists(f: Fixtures, username: Option<string>, pw: Option<string>)
    requires AuthenticateByName(f, username, pw).Ok200?
    ensures var header := Some(BearerPrefix + AuthenticateByName(f, username, pw).body.accessToken);
      && LegacyViews(f, header) == Ok200(LibraryPage(f.libraries, |f.libraries|))
      && LegacyResume(f, header) == Ok200(LegacyPage(f.continueWatching, |f.continueWatching|))
      && LegacyLatest(f, header) == Ok200(f.recentlyAdded)
  {
    AuthenticatedTokenValidates(f, username, pw);
  }

  /** Every item the resume listing serves is looked up, by its id, from the
      resume list itself: the item endpoint answers with the first
      continue-watching entry that carries the id. */
  lemma ResumeItemsLookUp(f: Fixtures, header: Option<string>, n: nat)
    requires LegacyResume(f, header).Ok200? && n < |LegacyResume(f, header).body.items|
    ensures var id := LegacyResume(f, header).body.items[n].id;
      LegacyItemById(f, header, id) == Ok200(Find(f.continueWatching, (i: MediaItem) => i.id == id).value)
  {
    var id := f.continueWatching[n].id;
    assert f.continueWatching[n] in f.continueWatching;
    LegacyPrefersResumeList(f, header, id);
  }

  /** The fixtures a legacy search looks through. */
  function Searchable(f: Fixtures): seq<MediaItem> {
    f.movies + f.tvShows + f.musicAlbums
  }

  /** `GET /Users/{userId}/Items`: a search term wins over the favourites
      filter, which wins over the parent library. */
  function LegacyItems(f: Fixtures, header: Option<string>, searchTerm: Option<string>,
                       filters: Option<string>, parentId: Option<string>): (r: Reply<LegacyPage>)
    ensures r.Unauthorized? <==> !ValidateBearerToken(header, f.accessToken)
    ensures !r.NotFound?
    ensures r.Ok200? ==> r.body.totalRecordCount == |r.body.items|
  {
    if !ValidateBearerToken(header, f.accessToken) then Unauthorized
    else
      var items :=
        if TruthyText(searchTerm) then Filter(Searchable(f), item => Matches(item, searchTerm.value))
        else if TruthyText(filters) && Contains(filters.value, "IsFavorite") then f.favorites
        else LibraryItems(f, parentId);
      Ok200(LegacyPage(items, |items|))
  }

  /** The precedence of the legacy query: with a search term the result
      holds exactly the matching searchable fixtures whatever the filter and
      parent; otherwise the favourites filter ignores the parent; an unknown
      parent lists nothing. */
  lemma LegacyPrecedence(f: Fixtures, header: Option<string>, searchTerm: Option<string>,
                         filters: Option<string>, parentId: Option<string>)
    requires ValidateBearerToken(header, f.accessToken)
    ensures var page := LegacyItems(f, header, searchTerm, filters, parentId).body;
            && (TruthyText(searchTerm) ==>
                  page == LegacyItems(f, header, searchTerm, None, None).body
                  && forall item :: item in page.items <==> item in Searchable(f) && Matches(item, searchTerm.value))
            && (!TruthyText(searchTerm) && TruthyText(filters) && Contains(filters.value, "IsFavorite") ==>
                  page.items == f.favorites)
            && (!TruthyText(searchTerm) && !TruthyText(filters) ==>
                  (page.items == [] <== forall t :: parentId != Some(LibraryIdOf(t))))
  {
    if !TruthyText(searchTerm) && !TruthyText(filters) && forall t :: parentId != Some(LibraryIdOf(t)) {
      assert parentId != Some(LibraryIdOf(Movie)) && parentId != Some(LibraryIdOf(Tv));
      assert parentId != Some(LibraryIdOf(Music)) && parentId != Some(LibraryIdOf(Video));
      assert parentId != Some(LibraryIdOf(Podcast)) && parentId != Some(LibraryIdOf(Personal));
    }
  }

  /** A legacy library lists the same fixtures, in the same order, as the
      typed listing of its media type. */
  lemma LegacyLibraryMatchesType(f: Fixtures, header: Option<string>, t: MediaType)
    requires ValidateBearerToken(header, f.accessToken)
    ensures LegacyItems(f, header, None, None, Some(LibraryIdOf(t))).body.items == ItemsByType(f, TypeName(t))
  {
  }

  /** Every fixture, in the order the item lookup searches them. */
  function AllFixtures(f: Fixtures): seq<MediaItem> {
    f.continueWatching + f.recentlyAdded + f.favorites + f.movies + f.tvShows + f.tvEpisodes
    + f.musicAlbums + f.musicTracks + f.videos + f.podcasts + f.personal
  }

  /** `GET /Users/{userId}/Items/{itemId}`: the first fixture anywhere with
      that id, or 404. */
  function LegacyItemById(f: Fixtures, header: Option<string>, itemId: string): (r: Reply<MediaItem>)
    ensures r.Unauthorized? <==> !ValidateBearerToken(header, f.accessToken)
    ensures r.NotFound? <==> ValidateBearerToken(header, f.accessToken)
                             && forall item :: item in AllFixtures(f) ==> item.id != itemId
    ensures r.Ok200? ==> r.body.id == itemId && r.body in AllFixtures(f)
  {
    if !ValidateBearerToken(header, f.accessToken) then Unauthorized
    else
      match Find(AllFixtures(f), (i: MediaItem) => i.id == itemId)
      case Some(item) => Ok200(item)
      case None => NotFound
  }

  /** The legacy lookup answers with the first fixture, in the handler's
      list order, that has the id. */
  lemma LegacyItemByIdIsFirst(f: Fixtures, header: Option<string>, itemId: string) returns (n: nat)
    requires LegacyItemById(f, header, itemId).Ok200?
    ensures var all := AllFixtures(f);
            && n < |all| && LegacyItemById(f, header, itemId).body == all[n]
            && forall j :: 0 <= j < n ==> all[j].id != itemId
  {
    n := FindFirst(AllFixtures(f), (i: MediaItem) => i.id == itemId);
  }

  /** An id on the continue-watching list is answered with that list's
      copy, whatever other lists hold an item with the same id. */
  lemma LegacyPrefersResumeList(f: Fixtures, header: Option<string>, itemId: string)
    requires ValidateBearerToken(header, f.accessToken)
    requires exists item :: item in f.continueWatching && item.id == itemId
    ensures LegacyItemById(f, header, itemId)
            == Ok200(Find(f.continueWatching, (i: MediaItem) => i.id == itemId).value)
  {
    var rest := f.recentlyAdded + f.favorites + f.movies + f.tvShows + f.tvEpisodes
                + f.musicAlbums + f.musicTracks + f.videos + f.podcasts + f.personal;
    assert AllFixtures(f) == f.continueWatching + rest;
    var item :| item in f.continueWatching && item.id == itemId;
    var k :| 0 <= k < |f.continueWatching| && f.continueWatching[k] == item;
    FindAppend(f.continueWatching, rest, (i: MediaItem) => i.id == itemId);
  }

  /** Whatever the typed detail endpoint finds, the legacy lookup finds too. */
  lemma LegacyLookupCoversTyped(f: Fixtures, t: MediaType, header: Option<string>, mediaId: string)
    requires GetDetail(f, t, header, mediaId).Ok200?
    ensures LegacyItemById(f, header, mediaId).Ok200?
  {
    var item :| item in ItemsByType(f, TypeName(t)) && GetDetail(f, t, header, mediaId).body == TransformToMediaDetail(item);
    TypedInAll(f, TypeName(t), item);
  }

  /** Every list a typed route serves is part of the legacy item lookup. */
  lemma TypedInAll(f: Fixtures, typeName: string, item: MediaItem)
    requires item in ItemsByType(f, typeName)
    ensures item in AllFixtures(f)
  {
    var head := f.continueWatching + f.recentlyAdded + f.favorites;
    assert AllFixtures(f) == head + f.movies + (f.tvShows + f.tvEpisodes) + (f.musicAlbums + f.musicTracks)
                             + f.videos + f.podcasts + f.personal;
  }
  /** The artwork an image request is answered with. */
  datatype Image = PosterImage(poster: MockImages.Poster) | BackdropImage(backdrop: MockImages.Backdrop)

  /** `GET /Items/{itemId}/Images/{imageType}` (served without a token): a
      backdrop for `Backdrop`, a poster for any other image type, drawn for
      the searchable fixture with that id, or for 'Unknown' when there is
      none. */
  function ItemImage(f: Fixtures, itemId: string, imageType: string): (r: Image)
    ensures r.BackdropImage? <==> imageType == "Backdrop"
    ensures var found := Find(Searchable(f), (i: MediaItem) => i.id == itemId);
            var name := if found.Some? && found.value.name != "" then found.value.name else "Unknown";
            var badgeType := if found.Some? && found.value.itemType != "" then found.value.itemType else "Media";
            && (r.BackdropImage? ==> r.backdrop == MockImages.GenerateBackdrop(itemId, name))
            && (r.PosterImage? ==> r.poster == MockImages.GeneratePoster(itemId, name, badgeType))
  {
    var found := Find(Searchable(f), (i: MediaItem) => i.id == itemId);
    var name := if found.Some? && found.value.name != "" then found.value.name else "Unknown";
    if imageType == "Backdrop" then BackdropImage(MockImages.GenerateBackdrop(itemId, name))
    else PosterImage(MockImages.GeneratePoster(itemId, name, if found.Some? && found.value.itemType != "" then found.value.itemType else "Media"))
  }

  /** An id with no searchable fixture gets the default artwork: a 'TV'
      badge over the 'Media' label in the default palette. */
  lemma UnknownItemImage(f: Fixtures, itemId: string)
    requires forall item :: item in Searchable(f) ==> item.id != itemId
    requires itemId !in MockImages.PosterPalettes
    ensures var r := ItemImage(f, itemId, "Primary").poster;
            r.title == "Unknown" && r.typeLabel == "Media" && r.badge == "TV"
            && r.palette == MockImages.DefaultPalette
  {
    MockImages.FirstTwoWordsOfTitle("Unknown");
    assert Split("Unknown", ' ') == ["Unknown"];
  }
}
