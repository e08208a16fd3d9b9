/** The catalog ingest panel (src/components/catalog/CatalogIngestPanel.tsx):
    a search form over the upstream catalog and a download button per match.
    Its state is three slots: the matches shown, the alert, and the key of
    the one download in flight. The calls to the adapter are inputs. */
module CatalogIngest {
  import opened Js
  import opened Text
  import opened ApiTypes

  /** The heading of each media type in the panel title. */
  function MediaTypeLabel(t: MediaType): string {
    match t
    case Movie => "Movies"
    case Tv => "TV Shows"
    case Music => "Music"
    case Podcast => "Podcasts"
    case Video => "Videos"
    case Personal => "Personal Media"
  }

  /** `title ?? 'Add {label} from Catalog'`: an empty title is kept. */
  function PanelTitle(t: MediaType, title: Option<string>): (r: string)
    ensures title.Some? ==> r == title.value
    ensures title.None? ==> r == "Add " + MediaTypeLabel(t) + " from Catalog"
  {
    Coalesce(title, "Add " + MediaTypeLabel(t) + " from Catalog")
  }

  datatype AlertKind = Success | Error
  datatype Alert = Alert(kind: AlertKind, message: string)

  const BlankQuery := "Enter a title to search"
  const NoMatches := "No catalog matches found."
  const SearchFailed := "Catalog search failed."
  const DownloadFailed := "Download failed."

  /** What `Number(year)` gives: a number, or NaN for text that is not one. */
  datatype ParsedYear = Finite(value: Number) | NotANumber

  /** `parsedYear && Number.isNaN(parsedYear)`: NaN is falsy, so the guard
      meant to refuse a non-numeric year can never hold. */
  predicate YearGuardFires(parsed: Option<ParsedYear>) {
    var truthy := parsed.Some? && parsed.value.Finite? && parsed.value.value != 0.0;
    truthy && parsed.value.NotANumber?
  }

  lemma YearGuardNeverFires(parsed: Option<ParsedYear>)
    ensures !YearGuardFires(parsed)
  {
  }

  /** The arguments `searchCatalog` is called with. */
  datatype SearchCall = SearchCall(mediaType: MediaType, query: string, limit: int, year: Option<ParsedYear>)

  /** The search mutation up to the call: a blank query is refused, the
      query is sent trimmed, an empty year field sends no year, and any
      other year text is sent as `Number` parses it, NaN included.
      `parsedYear` is `Number(year)`. */
  function SearchRequest(t: MediaType, query: string, year: string, parsedYear: ParsedYear, limit: int): (r: Result<SearchCall>)
    ensures r.Err? <==> IsBlank(query)
    ensures r.Err? ==> r.error == BlankQuery
    ensures r.Ok? ==> r.value.query == Trim(query) && r.value.limit == limit && r.value.mediaType == t
    ensures r.Ok? ==> (r.value.year.None? <==> year == "")
    ensures r.Ok? && year != "" ==> r.value.year == Some(parsedYear)
  {
    if IsBlank(query) then Err(BlankQuery)
    else
      var parsed := if year != "" then Some(parsedYear) else None;
      if YearGuardFires(parsed) then Err("Year must be a number")
      else Ok(SearchCall(t, Trim(query), limit, parsed))
  }

  /** A non-numeric year is never refused by the form. */
  lemma NonNumericYearIsSent(t: MediaType, query: string, year: string, limit: int)
    requires !IsBlank(query) && year != ""
    ensures SearchRequest(t, query, year, NotANumber, limit) == Ok(SearchCall(t, Trim(query), limit, Some(NotANumber)))
  {
  }

  /** `error.message || fallback`. */
  function ErrorAlert(message: string, fallback: string): (r: Alert)
    ensures r.kind == Error && (fallback != "" ==> r.message != "")
    ensures r.message == (if message != "" then message else fallback)
  {
    Alert(Error, if message != "" then message else fallback)
  }

  /** `Download started. Fetching {title || 'catalog title'}`. */
  function StartedAlert(m: CatalogMatch): Alert {
    Alert(Success, "Download started. Fetching " + (if m.tmdbMovie.title != "" then m.tmdbMovie.title else "catalog title"))
  }

  class IngestPanel {
    var matches: seq<CatalogMatch>
    var alert: Option<Alert>
    var activeMatchKey: Option<string>
    var downloadPending: bool
    const mediaType: MediaType

    constructor(mediaType: MediaType)
      ensures this.mediaType == mediaType
      ensures matches == [] && alert == None && activeMatchKey == None && !downloadPending
    {
      this.mediaType := mediaType;
      matches := [];
      alert := None;
      activeMatchKey := None;
      downloadPending := false;
    }

    /** The button of a match is disabled while the download in flight is
        the one for its key. */
    predicate ButtonDisabled(m: CatalogMatch)
      reads this
    {
      downloadPending && activeMatchKey == Some(m.matchKey)
    }

    /** A search submission, settled. `parsedYear` is `Number(year)` and
        `outcome` what the adapter call settles with. A refused query or a
        failed search sets the error alert and keeps the matches; a
        successful one replaces them (`[]` when missing) and raises 'No
        catalog matches found.' when there are none. */
    method HandleSearch(query: string, year: string, parsedYear: ParsedYear, limit: int,
                        outcome: Result<CatalogMatchResponse>)
      returns (sent: Option<SearchCall>)
      modifies this
      ensures activeMatchKey == old(activeMatchKey) && downloadPending == old(downloadPending)
      ensures var request := SearchRequest(mediaType, query, year, parsedYear, limit);
        && (request.Err? ==> sent.None? && matches == old(matches) && alert == Some(Alert(Error, request.error)))
        && (request.Ok? ==> sent == Some(request.value))
      ensures SearchRequest(mediaType, query, year, parsedYear, limit).Ok? && outcome.Err? ==>
        matches == old(matches) && alert == Some(ErrorAlert(outcome.error, SearchFailed))
      ensures SearchRequest(mediaType, query, year, parsedYear, limit).Ok? && outcome.Ok? ==>
        && matches == OrArray(outcome.value.matches, Some([])).value
        && (matches == [] ==> alert == Some(Alert(Error, NoMatches)))
        && (matches != [] ==> alert == old(alert))
    {
      var request := SearchRequest(mediaType, query, year, parsedYear, limit);
      if request.Err? {
        alert := Some(ErrorAlert(request.error, SearchFailed));
        return None;
      }
      sent := Some(request.value);
      match outcome
      case Err(message) =>
        alert := Some(ErrorAlert(message, SearchFailed));
      case Ok(response) =>
        matches := OrArray(response.matches, Some([])).value;
        if |matches| == 0 {
          alert := Some(Alert(Error, NoMatches));
        }
    }

    /** A click on a match's button: the alert announces the download, the
        slot takes the match's key (a second click re-targets the single
        slot), and the request always asks to execute. */
    method HandleDownloadClick(m: CatalogMatch) returns (request: CatalogDownloadRequest)
      modifies this
      ensures alert == Some(StartedAlert(m))
      ensures activeMatchKey == Some(m.matchKey) && downloadPending
      ensures request == CatalogDownloadRequest(m.matchKey, Some(true))
      ensures matches == old(matches)
      ensures ButtonDisabled(m)
      ensures forall other: CatalogMatch :: other.matchKey != m.matchKey ==> !ButtonDisabled(other)
    {
      alert := Some(StartedAlert(m));
      activeMatchKey := Some(m.matchKey);
      downloadPending := true;
      request := CatalogDownloadRequest(m.matchKey, Some(true));
    }

    /** The download settles: the alert reports it and the slot is cleared
        whether it worked or not, so every button is enabled again and the
        same match can be retried. */
    method DownloadSettled(outcome: Result<CatalogDownloadResponse>)
      modifies this
      ensures outcome.Ok? ==> alert == Some(Alert(Success, "Download completed for " + outcome.value.title))
      ensures outcome.Err? ==> alert == Some(ErrorAlert(outcome.error, DownloadFailed))
      ensures activeMatchKey == None && !downloadPending
      ensures matches == old(matches)
      ensures forall m: CatalogMatch :: !ButtonDisabled(m)
    {
      match outcome {
        case Ok(response) =>
          alert := Some(Alert(Success, "Download completed for " + response.title));
        case Err(message) =>
          alert := Some(ErrorAlert(message, DownloadFailed));
      }
      activeMatchKey := None;
      downloadPending := false;
    }

    method CloseAlert()
      modifies this
      ensures alert == None
      ensures matches == old(matches) && activeMatchKey == old(activeMatchKey) && downloadPending == old(downloadPending)
    {
      alert := None;
    }
  }
}
