/** The live search box of the media-type page
    (src/components/common/SearchBar.tsx). The adapter it reads its route,
    base URL and headers from is not part of this model: the route segment,
    the base URL and the percent-encoding of the query are inputs. */
module SearchBar {
  import opened Js
  import opened Text
  import opened ApiTypes

  /** One hit of the `/local/search` endpoint. */
  datatype LocalHit = LocalHit(mediaId: string, title: string, hitType: string, overview: Option<string>)

  /** The endpoint's reply; `results` may be missing. */
  datatype LocalSearchBody = LocalSearchBody(results: Option<seq<LocalHit>>)

  /** What one run of the query does: the URL it fetched, if any, and what
      it resolved with. */
  datatype SearchRun = SearchRun(fetched: Option<string>, value: Result<seq<MediaItem>>)

  /** `${baseUrl}/${typeRoute}/local/search?query=…&limit=5&min_score=0.2` */
  function LocalSearchUrl(baseUrl: Option<string>, typeRoute: string, encodedQuery: string): string {
    OrText(baseUrl, Some("")).value + "/" + typeRoute + "/local/search?query=" + encodedQuery + "&limit=5&min_score=0.2"
  }

  /** A hit as the page shows it: an item with the hit's id, title and type,
      its overview and an unplayed, unfavourited state. */
  function HitToItem(hit: LocalHit): (item: MediaItem)
    ensures item.id == hit.mediaId && item.name == hit.title
    ensures item.itemType == hit.hitType && item.mediaType == Some(hit.hitType)
    ensures item.overview == hit.overview && item.userData == Some(ZeroUserData)
  {
    BareItem(hit.mediaId, hit.title, hit.hitType).(
      mediaType := Some(hit.hitType), overview := hit.overview, userData := Some(ZeroUserData))
  }

  /** `(data.results || []).map(…)` */
  function HitsToItems(body: LocalSearchBody): (items: seq<MediaItem>)
    ensures body.results.None? ==> items == []
    ensures body.results.Some? ==> |items| == |body.results.value|
    ensures body.results.Some? ==> forall i :: 0 <= i < |items| ==> items[i] == HitToItem(body.results.value[i])
  {
    var hits := body.results.GetOr([]);
    seq(|hits|, i requires 0 <= i < |hits| => HitToItem(hits[i]))
  }

  /** The search query: a blank input resolves with nothing and fetches
      nothing; otherwise the untrimmed input is sent, a non-2xx reply fails
      with 'Search failed' and a 2xx reply yields one item per hit. */
  function RunSearch(input: string, baseUrl: Option<string>, typeRoute: string, encode: string -> string,
                     reply: Fetched<LocalSearchBody>): (r: SearchRun)
    ensures r.fetched.None? <==> IsBlank(input)
    ensures IsBlank(input) ==> r.value == Ok([])
    ensures r.fetched.Some? ==> r.fetched.value == LocalSearchUrl(baseUrl, typeRoute, encode(input))
    ensures !IsBlank(input) && reply.Response? && !reply.Ok() ==> r.value == Err("Search failed")
    ensures !IsBlank(input) ==> (r.value.Ok? <==> reply.Ok())
    ensures !IsBlank(input) && reply.Ok() ==> r.value == Ok(HitsToItems(reply.body))
    ensures !IsBlank(input) && reply.Rejected? ==> r.value == Err(reply.reason)
  {
    if IsBlank(input) then SearchRun(None, Ok([]))
    else
      var url := LocalSearchUrl(baseUrl, typeRoute, encode(input));
      match reply
      case Rejected(reason) => SearchRun(Some(url), Err(reason))
      case Response(_, body) =>
        if !reply.Ok() then SearchRun(Some(url), Err("Search failed"))
        else SearchRun(Some(url), Ok(HitsToItems(body)))
  }

  /** `handleInputChange`: the new input, and the list reported to the page
      straight away (an empty one exactly when the input is blank). */
  function HandleInputChange(value: string): (r: (string, Option<seq<MediaItem>>))
    ensures r.0 == value
    ensures r.1.Some? <==> IsBlank(value)
    ensures r.1.Some? ==> r.1.value == []
  {
    (value, if IsBlank(value) then Some([]) else None)
  }

  /** A whitespace-only input never reaches the network: the page is told
      at once that there are no hits, and the query, had it run, would fetch
      nothing and resolve with no hits either. */
  lemma WhitespaceNeverSearches(value: string, baseUrl: Option<string>, typeRoute: string,
                                encode: string -> string, reply: Fetched<LocalSearchBody>)
    requires forall k :: 0 <= k < |value| ==> IsWhitespace(value[k])
    ensures HandleInputChange(value).1 == Some([])
    ensures RunSearch(value, baseUrl, typeRoute, encode, reply) == SearchRun(None, Ok([]))
  {
    BlankIffAllWhitespace(value);
  }

  /** Each shown item carries exactly the id, title and type of its hit, in
      hit order. */
  lemma ItemsFollowHits(input: string, baseUrl: Option<string>, typeRoute: string, encode: string -> string,
                        reply: Fetched<LocalSearchBody>)
    requires !IsBlank(input) && reply.Ok() && reply.body.results.Some?
    ensures var items := RunSearch(input, baseUrl, typeRoute, encode, reply).value.value;
            var hits := reply.body.results.value;
            |items| == |hits| && forall i :: 0 <= i < |hits| ==>
              items[i].id == hits[i].mediaId && items[i].name == hits[i].title && items[i].itemType == hits[i].hitType
  {
  }
}
