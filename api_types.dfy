/** The records the web client exchanges with the BitHarbor backend
    (src/types/api.ts), with the fields the modelled code reads or writes. */
module ApiTypes {
  import opened Js

  /** The six kinds of media the backend stores. */
  datatype MediaType = Movie | Tv | Music | Podcast | Video | Personal

  /** The six URL segments the backend groups its endpoints under. */
  datatype MediaTypeRoute = MoviesRoute | TvRoute | MusicRoute | PodcastsRoute | VideosRoute | PersonalRoute

  /** Every media type, in the order the adapter fans out over them. */
  const AllTypes: seq<MediaType> := [Movie, Tv, Music, Podcast, Video, Personal]

  /** The wire name of a media type. */
  function TypeName(t: MediaType): string {
    match t
    case Movie => "movie"
    case Tv => "tv"
    case Music => "music"
    case Podcast => "podcast"
    case Video => "video"
    case Personal => "personal"
  }

  /** The URL segment of a route. */
  function RouteName(r: MediaTypeRoute): string {
    match r
    case MoviesRoute => "movies"
    case TvRoute => "tv"
    case MusicRoute => "music"
    case PodcastsRoute => "podcasts"
    case VideosRoute => "videos"
    case PersonalRoute => "personal"
  }

  /** Reads a wire name back; any other string is not a media type. */
  function ParseMediaType(s: string): (r: Option<MediaType>)
    ensures r.Some? <==> s in {"movie", "tv", "music", "podcast", "video", "personal"}
  {
    if s == "movie" then Some(Movie)
    else if s == "tv" then Some(Tv)
    else if s == "music" then Some(Music)
    else if s == "podcast" then Some(Podcast)
    else if s == "video" then Some(Video)
    else if s == "personal" then Some(Personal)
    else None
  }

  /** The wire names are exactly the six literals and read back to the type
      they came from. */
  lemma MediaTypeNames(t: MediaType, s: string)
    ensures ParseMediaType(TypeName(t)) == Some(t)
    ensures ParseMediaType(s) == Some(t) <==> s == TypeName(t)
    ensures t in AllTypes && |AllTypes| == 6
  {
  }

  /** The items `ImageTags` carries when a poster is known. */
  type ImageTags = map<string, string>

  /** Per-user playback state of an item. */
  datatype UserData = UserData(
    playedPercentage: Option<Number>,
    played: bool,
    isFavorite: bool,
    playbackPositionTicks: Number)

  /** The playback state the adapter attaches to every item it builds. */
  const ZeroUserData := UserData(None, false, false, 0.0)

  /** An item as the pages render it. `itemType` is the JSON `Type` string:
      the BitHarbor adapter writes a media-type name, the legacy services
      copy whatever the server sent ("Movie", "Episode", or ""). */
  datatype MediaItem = MediaItem(
    id: string,
    name: string,
    itemType: string,
    mediaType: Option<string>,
    sourceType: Option<string>,
    seriesName: Option<string>,
    seasonName: Option<string>,
    indexNumber: Option<Number>,
    parentIndexNumber: Option<Number>,
    overview: Option<string>,
    imageTags: Option<ImageTags>,
    posterUrl: Option<string>,
    backdropUrl: Option<string>,
    userData: Option<UserData>,
    productionYear: Option<Number>,
    runTimeTicks: Option<Number>,
    officialRating: Option<string>,
    communityRating: Option<Number>,
    genres: Option<seq<string>>,
    originalTitle: Option<string>,
    releaseDate: Option<string>,
    runtimeMinutes: Option<Number>,
    cast: Option<seq<string>>,
    director: Option<string>,
    tagline: Option<string>,
    budget: Option<Number>,
    revenue: Option<Number>,
    seriesId: Option<string>,
    seasonNumber: Option<Number>,
    episodeNumber: Option<Number>,
    airDate: Option<string>,
    artist: Option<string>,
    album: Option<string>,
    albumArtist: Option<string>,
    trackNumber: Option<Number>,
    discNumber: Option<Number>,
    duration: Option<Number>,
    showName: Option<string>,
    pubDate: Option<string>,
    episodeTitle: Option<string>,
    captureDate: Option<string>,
    deviceMake: Option<string>,
    deviceModel: Option<string>,
    gpsLat: Option<Number>,
    gpsLon: Option<Number>,
    albumName: Option<string>,
    platform: Option<string>,
    channelName: Option<string>,
    uploader: Option<string>)

  /** An item with only the three required fields set. */
  function BareItem(id: string, name: string, itemType: string): (r: MediaItem)
    ensures r.id == id && r.name == name && r.itemType == itemType
  {
    MediaItem(id, name, itemType, None, None, None, None, None, None, None, None, None, None, None,
      None, None, None, None, None, None, None, None, None, None, None, None, None, None, None, None,
      None, None, None, None, None, None, None, None, None, None, None, None, None, None, None, None,
      None, None, None)
  }

  /** A media library as the navigation lists it. */
  datatype Library = Library(id: string, name: string, collectionType: Option<string>)

  /** The untyped `metadata` record of a media detail, with the keys the
      adapter reads. */
  datatype Metadata = Metadata(
    title: Option<string>,
    description: Option<string>,
    overview: Option<string>,
    posterUrl: Option<string>,
    backdropUrl: Option<string>,
    year: Option<Number>,
    durationSeconds: Option<Number>,
    genres: Option<seq<string>>,
    rating: Option<Number>,
    contentRating: Option<string>,
    originalTitle: Option<string>,
    releaseDate: Option<string>,
    runtimeMinutes: Option<Number>,
    cast: Option<seq<string>>,
    director: Option<string>,
    seriesName: Option<string>,
    seasonNumber: Option<Number>,
    episodeNumber: Option<Number>,
    airDate: Option<string>,
    artist: Option<string>,
    album: Option<string>,
    albumArtist: Option<string>,
    trackNumber: Option<Number>,
    discNumber: Option<Number>,
    duration: Option<Number>,
    showName: Option<string>,
    pubDate: Option<string>,
    episodeTitle: Option<string>,
    captureDate: Option<string>,
    deviceMake: Option<string>,
    deviceModel: Option<string>,
    gpsLat: Option<Number>,
    gpsLon: Option<Number>,
    albumName: Option<string>,
    platform: Option<string>,
    channelName: Option<string>,
    uploader: Option<string>)

  /** `{}`: a metadata record with no keys. */
  const EmptyMetadata := Metadata(None, None, None, None, None, None, None, None, None, None, None,
    None, None, None, None, None, None, None, None, None, None, None, None, None, None, None, None,
    None, None, None, None, None, None, None, None, None, None)

  datatype CastMember = CastMember(name: string, character: Option<string>)
  datatype CrewMember = CrewMember(name: string, job: string)

  /** A date string together with the year `new Date(text).getFullYear()`
      yields for it on the host. */
  datatype DateText = DateText(text: string, fullYear: Number)

  datatype MovieMetadata = MovieMetadata(
    title: string,
    originalTitle: Option<string>,
    tagline: Option<string>,
    overview: Option<string>,
    releaseDate: Option<string>,
    year: Option<Number>,
    runtimeMin: Option<Number>,
    budget: Option<Number>,
    revenue: Option<Number>,
    genres: Option<seq<string>>,
    voteAverage: Option<Number>,
    cast: Option<seq<CastMember>>,
    crew: Option<seq<CrewMember>>,
    posterUrl: Option<string>,
    backdropUrl: Option<string>)

  datatype TvShowMetadata = TvShowMetadata(
    name: string,
    overview: Option<string>,
    firstAirDate: Option<DateText>,
    genres: Option<seq<string>>,
    voteAverage: Option<Number>,
    cast: Option<seq<CastMember>>,
    posterUrl: Option<string>)

  datatype TvEpisodeMetadata = TvEpisodeMetadata(
    seriesName: Option<string>,
    name: string,
    overview: Option<string>,
    seasonNumber: Number,
    episodeNumber: Number,
    airDate: Option<string>,
    runtimeMin: Option<Number>,
    voteAverage: Option<Number>,
    cast: Option<seq<CastMember>>)

  datatype MusicTrackMetadata = MusicTrackMetadata(
    title: string,
    artist: Option<string>,
    album: Option<string>,
    trackNumber: Option<Number>,
    discNumber: Option<Number>,
    durationS: Option<Number>,
    year: Option<Number>,
    genres: Option<seq<string>>)

  datatype PodcastEpisodeMetadata = PodcastEpisodeMetadata(
    title: string,
    showName: Option<string>,
    description: Option<string>,
    pubDate: Option<string>,
    durationS: Option<Number>,
    imageUrl: Option<string>)

  /** The enrichment envelope: any subset of the five per-type records. */
  datatype EnrichedMetadata = EnrichedMetadata(
    movie: Option<MovieMetadata>,
    tvShow: Option<TvShowMetadata>,
    tvEpisode: Option<TvEpisodeMetadata>,
    music: Option<MusicTrackMetadata>,
    podcast: Option<PodcastEpisodeMetadata>)

  /** A media record as the backend describes it. `mediaType` is the JSON
      `type` string. */
  datatype MediaDetail = MediaDetail(
    mediaId: string,
    mediaType: string,
    title: string,
    sourceType: string,
    vectorHash: string,
    fileHash: Option<string>,
    metadata: Option<Metadata>,
    enriched: Option<EnrichedMetadata>)

  /** One hit of a vector search. */
  datatype SearchResult = SearchResult(
    mediaId: string,
    score: Number,
    mediaType: string,
    title: string,
    previewUrl: Option<string>)

  datatype SearchResponse = SearchResponse(results: seq<SearchResult>)

  /** The TMDb record a catalog match describes. */
  datatype CatalogMovieDetails = CatalogMovieDetails(
    title: string,
    tagline: Option<string>,
    overview: Option<string>,
    releaseDate: Option<string>,
    year: Option<Number>,
    runtimeMin: Option<Number>,
    genres: Option<seq<string>>)

  datatype CatalogMatchCandidate = CatalogMatchCandidate(
    identifier: string,
    title: Option<string>,
    score: Option<Number>,
    downloads: Option<Number>)

  datatype CatalogMatch = CatalogMatch(
    matchKey: string,
    tmdbId: int,
    tmdbMovie: CatalogMovieDetails,
    bestCandidate: CatalogMatchCandidate,
    candidates: seq<CatalogMatchCandidate>)

  /** A catalog search reply; `matches` may be missing from the JSON. */
  datatype CatalogMatchResponse = CatalogMatchResponse(matches: Option<seq<CatalogMatch>>, total: Number)

  datatype CatalogDownloadRequest = CatalogDownloadRequest(matchKey: string, execute: Option<bool>)

  datatype CatalogDownloadResponse = CatalogDownloadResponse(
    matchKey: string,
    identifier: string,
    title: string,
    destination: Option<string>,
    downloaded: bool,
    fileHash: Option<string>,
    vectorHash: Option<string>)

  /** The legacy user record. */
  datatype User = User(id: string, name: string, serverId: string, hasPassword: bool)

  /** The administrator of a BitHarbor server. */
  datatype Admin = Admin(adminId: string, email: string, displayName: string)

  datatype Participant = Participant(participantId: string, handle: string, displayName: string, role: string)
}
