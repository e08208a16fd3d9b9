/** The facade the pages call (src/lib/api/unified-client.ts): every
    operation is a case split on the backend tag read from the environment,
    between the legacy media-server client (`mock`) and the BitHarbor
    adapter, with fixed answers where BitHarbor has no counterpart. The
    legacy client's answer for the same arguments is an input (`mock…`);
    the BitHarbor side is modelled through the adapter. */
module Unified {
  import opened Js
  import opened Text
  import opened ApiTypes
  import BitHarbor
  import LegacyApi

  const MockTag := "mock"
  const BitHarborTag := "bitharbor"

  /** `VITE_BACKEND_TYPE || 'mock'`: the cast to the two-value type checks
      nothing, so any other string is kept as it is. */
  function BackendTagOf(env: Option<string>): (tag: string)
    ensures TruthyText(env) ==> tag == env.value
    ensures !TruthyText(env) ==> tag == MockTag
    ensures tag != ""
  {
    OrText(env, Some(MockTag)).value
  }

  /** `VITE_BITHARBOR_URL || 'http://localhost:8080/api/v1'`. */
  function BackendUrlOf(env: Option<string>): (url: string)
    ensures TruthyText(env) ==> url == env.value
    ensures !TruthyText(env) ==> url == BitHarbor.DefaultBaseUrl
  {
    OrText(env, Some(BitHarbor.DefaultBaseUrl)).value
  }

  /** The facade's configuration; it never changes after construction. */
  datatype UnifiedClient = UnifiedClient(backendType: string, backendUrl: string)

  function NewUnifiedClient(typeEnv: Option<string>, urlEnv: Option<string>): UnifiedClient {
    UnifiedClient(BackendTagOf(typeEnv), BackendUrlOf(urlEnv))
  }

  /** `search` and `vectorSearch` test for BitHarbor ... */
  predicate SearchesBitHarbor(c: UnifiedClient) {
    c.backendType == BitHarborTag
  }

  /** ... while every other operation tests for the mock tag. */
  predicate UsesMock(c: UnifiedClient) {
    c.backendType == MockTag
  }

  /** `search(query, limit = 20)`: the items of a type-less vector search
      with `k = limit`, or the legacy keyword search. */
  function Search(c: UnifiedClient, limit: Option<int>, replies: MediaType -> Fetched<SearchResponse>,
                  mockResult: Result<seq<MediaItem>>): Result<seq<MediaItem>> {
    if SearchesBitHarbor(c) then
      match BitHarbor.VectorSearchAllSpec(replies, Some(Coalesce(limit, 20)))
      case Err(e) => Err(e)
      case Ok(found) => Ok(found.items)
    else mockResult
  }

  /** The scores the legacy fallback attaches: one 1.0 per item. */
  function UnitScores(items: seq<MediaItem>): (r: BitHarbor.ScoredItems)
    ensures r.items == items && |r.scores| == |items|
    ensures forall i :: 0 <= i < |r.scores| ==> r.scores[i] == 1.0
  {
    BitHarbor.ScoredItems(items, seq(|items|, _ => 1.0))
  }

  /** `vectorSearch(query, { top_k })`. */
  function VectorSearch(c: UnifiedClient, topK: Option<int>, replies: MediaType -> Fetched<SearchResponse>,
                        mockResult: Result<seq<MediaItem>>): (r: Result<BitHarbor.ScoredItems>)
    ensures SearchesBitHarbor(c) ==> r == BitHarbor.VectorSearchAllSpec(replies, topK)
    ensures !SearchesBitHarbor(c) ==> (r.Ok? <==> mockResult.Ok?)
    ensures !SearchesBitHarbor(c) && r.Ok? ==>
      && r.value.items == mockResult.value && |r.value.scores| == |r.value.items|
      && forall i :: 0 <= i < |r.value.scores| ==> r.value.scores[i] == 1.0
  {
    if SearchesBitHarbor(c) then BitHarbor.VectorSearchAllSpec(replies, topK)
    else match mockResult
      case Err(e) => Err(e)
      case Ok(items) => Ok(UnitScores(items))
  }

  /** The one virtual library BitHarbor is shown as. */
  const AllMediaLibrary := Library("all-media", "All Media", Some("mixed"))

  function GetLibraries(c: UnifiedClient, mockLibraries: seq<Library>): seq<Library> {
    if UsesMock(c) then mockLibraries else [AllMediaLibrary]
  }

  /** `getLibraryItems`: on BitHarbor every type's media, whatever the
      library and the paging options; the adapter's failure rejects. */
  function GetLibraryItems(c: UnifiedClient, mockPage: LegacyApi.ItemPage,
                           responses: MediaType -> Fetched<seq<BitHarbor.AllRecord>>): Result<LegacyApi.ItemPage> {
    if UsesMock(c) then Ok(mockPage)
    else
      match BitHarbor.GetMediaAll(responses)
      case Err(e) => Err(e)
      case Ok(page) => Ok(LegacyApi.ItemPage(page.items, page.totalRecordCount as real))
  }

  function GetItemById(c: UnifiedClient, mockItem: Option<MediaItem>,
                       lookup: MediaType -> Fetched<MediaDetail>): Result<Option<MediaItem>> {
    if UsesMock(c) then Ok(mockItem) else BitHarbor.GetMediaByIdSpec(None, lookup)
  }

  /** The items of `getMedia(null)`, as the home rows use them. */
  function AllItems(responses: MediaType -> Fetched<seq<BitHarbor.AllRecord>>): Result<seq<MediaItem>> {
    match BitHarbor.GetMediaAll(responses)
    case Err(e) => Err(e)
    case Ok(page) => Ok(page.items)
  }

  function GetContinueWatching(c: UnifiedClient, mockItems: seq<MediaItem>,
                               responses: MediaType -> Fetched<seq<BitHarbor.AllRecord>>): Result<seq<MediaItem>> {
    if UsesMock(c) then Ok(mockItems) else AllItems(responses)
  }

  function GetRecentlyAdded(c: UnifiedClient, mockItems: seq<MediaItem>,
                            responses: MediaType -> Fetched<seq<BitHarbor.AllRecord>>): Result<seq<MediaItem>> {
    if UsesMock(c) then Ok(mockItems) else AllItems(responses)
  }

  function GetFavorites(c: UnifiedClient, mockItems: seq<MediaItem>): seq<MediaItem> {
    if UsesMock(c) then mockItems else []
  }

  /** The four write operations BitHarbor does not support yet. */
  datatype Mutation = ToggleFavorite | ReportPlaybackProgress | ReportPlaybackStopped | MarkAsPlayed

  function Mutate(c: UnifiedClient, op: Mutation, mockAnswer: bool): bool {
    if UsesMock(c) then mockAnswer else false
  }

  /** The placeholder size: width `w || 300`, height `floor(1.5 w)`. */
  function PlaceholderSize(width: Option<int>): (r: (int, int))
    ensures r.0 == (if TruthyInt(width) then width.value else 300)
    ensures 2 * r.1 <= 3 * r.0 < 2 * r.1 + 2
  {
    var w := if TruthyInt(width) then width.value else 300;
    (w, ((w as real) * 1.5).Floor)
  }

  /** `getImageUrl(itemId, imageType = 'Primary', width)`; the legacy client
      builds it from its own server URL. */
  function GetImageUrl(c: UnifiedClient, mockServerUrl: string, itemId: string, imageType: Option<string>, width: Option<int>): string {
    if UsesMock(c) then LegacyApi.ImageUrl(mockServerUrl, itemId, Coalesce(imageType, "Primary"), width)
    else
      var size := PlaceholderSize(width);
      "https://via.placeholder.com/" + IntToString(size.0) + "x" + IntToString(size.1) + "?text=Media"
  }

  function GetStreamUrl(c: UnifiedClient, itemId: string): string {
    if UsesMock(c) then "http://localhost:8096/Videos/" + itemId + "/stream.mp4"
    else BitHarbor.GetStreamUrl(c.backendUrl, itemId, None)
  }

  /** With no tag in the environment the facade is fully on the legacy
      client; with `bitharbor` it is fully on the adapter. */
  lemma DefaultTagIsMock(urlEnv: Option<string>)
    ensures UsesMock(NewUnifiedClient(None, urlEnv)) && !SearchesBitHarbor(NewUnifiedClient(None, urlEnv))
    ensures var c := NewUnifiedClient(Some(BitHarborTag), urlEnv); SearchesBitHarbor(c) && !UsesMock(c)
  {
  }

  /** An unrecognised tag splits the facade: searches go to the legacy
      client, everything else takes the BitHarbor side and its fixed
      answers. */
  lemma UnknownTagSplitsDispatch(c: UnifiedClient, limit: Option<int>, replies: MediaType -> Fetched<SearchResponse>,
                                 mockResult: Result<seq<MediaItem>>, mockLibraries: seq<Library>,
                                 mockItems: seq<MediaItem>, op: Mutation, mockAnswer: bool)
    requires c.backendType != MockTag && c.backendType != BitHarborTag
    ensures Search(c, limit, replies, mockResult) == mockResult
    ensures GetLibraries(c, mockLibraries) == [AllMediaLibrary]
    ensures GetFavorites(c, mockItems) == []
    ensures !Mutate(c, op, mockAnswer)
  {
  }

  /** Off the mock tag, the library listing is the adapter's whole-catalog
      fan-out: its items in type order and its total, which counts the
      items; a failing type fails the call. */
  lemma LibraryItemsAreAllMedia(c: UnifiedClient, mockPage: LegacyApi.ItemPage,
                                responses: MediaType -> Fetched<seq<BitHarbor.AllRecord>>)
    requires !UsesMock(c)
    ensures GetLibraryItems(c, mockPage, responses).Ok? <==> forall t :: t in AllTypes ==> responses(t).Ok()
    ensures GetLibraryItems(c, mockPage, responses).Ok? ==>
      var page := GetLibraryItems(c, mockPage, responses).value;
      page.totalCount == |page.items| as real
      && page.items == BitHarbor.GetMediaAll(responses).value.items
  {
    BitHarbor.FanOutSpec(AllTypes, responses);
  }

  /** Off the bitharbor tag, vector search scores every item 1.0; on it,
      the scores come from the adapter's merge. */
  lemma SearchAgreesWithVectorSearch(c: UnifiedClient, limit: int, replies: MediaType -> Fetched<SearchResponse>,
                                     mockResult: Result<seq<MediaItem>>)
    ensures var s := Search(c, Some(limit), replies, mockResult);
      var v := VectorSearch(c, Some(limit), replies, mockResult);
      (s.Ok? <==> v.Ok?) && (s.Ok? ==> s.value == v.value.items)
  {
  }

  /** The BitHarbor placeholder is 300 by 450 unless a width is given, and
      the stream URL is the movie stream URL. */
  lemma NonMockUrls(c: UnifiedClient, itemId: string, mockServerUrl: string, width: Option<int>)
    requires !UsesMock(c)
    requires !TruthyInt(width)
    ensures GetImageUrl(c, mockServerUrl, itemId, None, width) == "https://via.placeholder.com/300x450?text=Media"
    ensures GetStreamUrl(c, itemId) == c.backendUrl + "/movies/media/" + itemId + "/stream"
  {
    DefaultPlaceholder(width);
    BitHarbor.StreamUrlDefaultsToMovie(c.backendUrl, itemId);
  }

  /** Without a width the placeholder is 300 by 450. */
  lemma DefaultPlaceholder(width: Option<int>)
    requires !TruthyInt(width)
    ensures var size := PlaceholderSize(width);
            "https://via.placeholder.com/" + IntToString(size.0) + "x" + IntToString(size.1) + "?text=Media"
            == "https://via.placeholder.com/300x450?text=Media"
  {
    assert PlaceholderSize(width) == (300, 450);
    DefaultPlaceholderDigits();
    var host := "https://via.placeholder.com/";
    assert host + "300" == "https://via.placeholder.com/300";
    assert host + "300" + "x" == "https://via.placeholder.com/300x";
    assert host + "300" + "x" + "450" == "https://via.placeholder.com/300x450";
  }

  lemma DefaultPlaceholderDigits()
    ensures IntToString(300) == "300" && IntToString(450) == "450"
  {
    assert NatToString(3) == "3" && NatToString(4) == "4";
    assert NatToString(30) == NatToString(3) + [Digit(0)] == "30";
    assert NatToString(45) == NatToString(4) + [Digit(5)] == "45";
    assert NatToString(300) == NatToString(30) + [Digit(0)];
    assert NatToString(450) == NatToString(45) + [Digit(0)];
  }
}
