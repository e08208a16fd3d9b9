/** The BitHarbor adapter (src/lib/api/bitharbor-adapter.ts): it turns the
    backend's per-type records into the items the pages render, fans out over
    the six media types, merges vector-search hits, and builds the catalog and
    streaming requests. Every fetch is an input (`Fetched`). */
module BitHarbor {
  import opened Js
  import opened Text
  import opened ApiTypes
  import opened Sorting

  const DefaultBaseUrl := "http://localhost:8080/api/v1"

  /** Ticks are 100 ns units: ten million per second. */
  const TicksPerSecond: Number := 10000000.0

  /** The route segment a media type's endpoints live under. */
  function GetTypeRoute(t: MediaType): (r: MediaTypeRoute)
    ensures RouteName(r) == match t
      case Movie => "movies" case Tv => "tv" case Music => "music"
      case Podcast => "podcasts" case Video => "videos" case Personal => "personal"
  {
    match t
    case Movie => MoviesRoute
    case Tv => TvRoute
    case Music => MusicRoute
    case Podcast => PodcastsRoute
    case Video => VideosRoute
    case Personal => PersonalRoute
  }

  /** Distinct media types reach distinct endpoints, and every route is used. */
  lemma TypeRouteBijective(t: MediaType, u: MediaType, r: MediaTypeRoute)
    ensures GetTypeRoute(t) == GetTypeRoute(u) ==> t == u
    ensures RouteName(GetTypeRoute(t)) == RouteName(GetTypeRoute(u)) ==> t == u
    ensures exists v :: GetTypeRoute(v) == r
  {
    match r
    case MoviesRoute => assert GetTypeRoute(Movie) == r;
    case TvRoute => assert GetTypeRoute(Tv) == r;
    case MusicRoute => assert GetTypeRoute(Music) == r;
    case PodcastsRoute => assert GetTypeRoute(Podcast) == r;
    case VideosRoute => assert GetTypeRoute(Video) == r;
    case PersonalRoute => assert GetTypeRoute(Personal) == r;
  }

  // ---------------------------------------------------------------------
  // transformMediaItem
  // ---------------------------------------------------------------------

  /** `{ Primary: 'has-image' }` */
  const HasImage: ImageTags := map["Primary" := "has-image"]

  /** `ImageTags` when a poster URL is set, otherwise `fallback`. */
  function PosterTags(poster: Option<string>, fallback: Option<ImageTags>): Option<ImageTags> {
    if TruthyText(poster) then Some(HasImage) else fallback
  }

  /** A running time in seconds as ticks, when the seconds are truthy. */
  function SecondsAsTicks(seconds: Option<Number>, fallback: Option<Number>): Option<Number> {
    if TruthyNumber(seconds) then Some(seconds.value * TicksPerSecond) else fallback
  }

  /** A running time in minutes as ticks, when the minutes are truthy. */
  function MinutesAsTicks(minutes: Option<Number>, fallback: Option<Number>): Option<Number> {
    if TruthyNumber(minutes) then Some(minutes.value * 60.0 * TicksPerSecond) else fallback
  }

  /** `cast?.map(c => c.name)` */
  function CastNames(cast: Option<seq<CastMember>>): (r: Option<seq<string>>)
    ensures r.Some? <==> cast.Some?
    ensures r.Some? ==> |r.value| == |cast.value|
  {
    match cast
    case None => None
    case Some(cs) => Some(seq(|cs|, i requires 0 <= i < |cs| => cs[i].name))
  }

  /** `crew?.find(c => c.job === 'Director')?.name` */
  function DirectorOf(crew: Option<seq<CrewMember>>): Option<string> {
    if crew.None? then None else FirstDirector(crew.value)
  }

  function FirstDirector(crew: seq<CrewMember>): Option<string> {
    if crew == [] then None
    else if crew[0].job == "Director" then Some(crew[0].name)
    else FirstDirector(crew[1..])
  }

  /** The director is the name of the first crew member whose job is
      "Director", and there is one exactly when such a member exists. */
  lemma {:induction false} FirstDirectorSpec(crew: seq<CrewMember>)
    ensures FirstDirector(crew).Some? <==> exists i :: 0 <= i < |crew| && crew[i].job == "Director"
    ensures FirstDirector(crew).Some? ==>
      exists i :: 0 <= i < |crew| && crew[i].job == "Director" && crew[i].name == FirstDirector(crew).value
                  && forall m :: 0 <= m < i ==> crew[m].job != "Director"
  {
    if crew != [] && crew[0].job != "Director" {
      var rest := crew[1..];
      FirstDirectorSpec(rest);
      if FirstDirector(rest).Some? {
        var i :| 0 <= i < |rest| && rest[i].job == "Director" && rest[i].name == FirstDirector(rest).value
                 && forall m :: 0 <= m < i ==> rest[m].job != "Director";
        assert crew[i + 1] == rest[i];
        forall m | 0 <= m < i + 1 ensures crew[m].job != "Director" {
          if m > 0 { assert crew[m] == rest[m - 1]; }
        }
      } else {
        forall i | 0 <= i < |crew| ensures crew[i].job != "Director" {
          if i > 0 { assert crew[i] == rest[i - 1]; }
        }
      }
    } else if crew != [] {
      assert crew[0].job == "Director";
    }
  }

  /** `detail.title || metadata.title || 'Unknown'` */
  function BaseName(detail: MediaDetail, meta: Metadata): string {
    if detail.title != "" then detail.title
    else if TruthyText(meta.title) then meta.title.value
    else "Unknown"
  }

  /** The item built from the flat metadata before any enrichment. */
  function BaseItem(detail: MediaDetail, meta: Metadata): MediaItem {
    BareItem(detail.mediaId, BaseName(detail, meta), detail.mediaType).(
      mediaType := Some(detail.mediaType),
      sourceType := Some(detail.sourceType),
      overview := OrText(meta.description, meta.overview),
      imageTags := PosterTags(meta.posterUrl, None),
      posterUrl := meta.posterUrl,
      backdropUrl := meta.backdropUrl,
      userData := Some(ZeroUserData),
      productionYear := meta.year,
      runTimeTicks := SecondsAsTicks(meta.durationSeconds, None),
      genres := Some(meta.genres.GetOr([])),
      communityRating := meta.rating,
      officialRating := meta.contentRating)
  }

  function ApplyMovie(b: MediaItem, m: MovieMetadata): MediaItem {
    b.(
      name := m.title,
      originalTitle := KeepText(m.originalTitle),
      overview := OrText(m.overview, b.overview),
      productionYear := OrNumber(m.year, b.productionYear),
      releaseDate := KeepText(m.releaseDate),
      runtimeMinutes := KeepNumber(m.runtimeMin),
      runTimeTicks := MinutesAsTicks(m.runtimeMin, b.runTimeTicks),
      genres := OrArray(m.genres, b.genres),
      communityRating := OrNumber(m.voteAverage, b.communityRating),
      cast := CastNames(m.cast),
      director := DirectorOf(m.crew),
      imageTags := PosterTags(m.posterUrl, b.imageTags),
      posterUrl := OrText(m.posterUrl, b.posterUrl),
      backdropUrl := OrText(m.backdropUrl, b.backdropUrl),
      tagline := KeepText(m.tagline),
      budget := KeepNumber(m.budget),
      revenue := KeepNumber(m.revenue))
  }

  /** `show?.name`, `show?.overview`, `show?.vote_average`, `show?.cast?.map(…)` */
  function ShowName(show: Option<TvShowMetadata>): Option<string> {
    if show.Some? then Some(show.value.name) else None
  }

  function ShowOverview(show: Option<TvShowMetadata>): Option<string> {
    if show.Some? then show.value.overview else None
  }

  function ShowRating(show: Option<TvShowMetadata>): Option<Number> {
    if show.Some? then show.value.voteAverage else None
  }

  function ShowCast(show: Option<TvShowMetadata>): Option<seq<string>> {
    if show.Some? then CastNames(show.value.cast) else None
  }

  function ApplyEpisode(b: MediaItem, e: TvEpisodeMetadata, show: Option<TvShowMetadata>): MediaItem {
    b.(
      name := e.name,
      seriesName := KeepText(OrText(e.seriesName, ShowName(show))),
      seasonNumber := Some(e.seasonNumber),
      episodeNumber := Some(e.episodeNumber),
      overview := OrText(e.overview, OrText(ShowOverview(show), b.overview)),
      airDate := KeepText(e.airDate),
      runtimeMinutes := KeepNumber(e.runtimeMin),
      runTimeTicks := MinutesAsTicks(e.runtimeMin, b.runTimeTicks),
      communityRating := OrNumber(e.voteAverage, OrNumber(ShowRating(show), b.communityRating)),
      cast := OrArray(CastNames(e.cast), ShowCast(show)))
  }

  function ApplyShow(b: MediaItem, s: TvShowMetadata): MediaItem {
    b.(
      genres := OrArray(s.genres, b.genres),
      productionYear :=
        if s.firstAirDate.Some? && s.firstAirDate.value.text != "" then Some(s.firstAirDate.value.fullYear)
        else b.productionYear,
      imageTags := PosterTags(s.posterUrl, b.imageTags))
  }

  function ApplyTv(b: MediaItem, show: Option<TvShowMetadata>, episode: Option<TvEpisodeMetadata>): MediaItem {
    var withEpisode := if episode.Some? then ApplyEpisode(b, episode.value, show) else b;
    if show.Some? then ApplyShow(withEpisode, show.value) else withEpisode
  }

  function ApplyMusic(b: MediaItem, m: MusicTrackMetadata): MediaItem {
    b.(
      name := m.title,
      artist := KeepText(m.artist),
      album := KeepText(m.album),
      trackNumber := KeepNumber(m.trackNumber),
      discNumber := KeepNumber(m.discNumber),
      duration := KeepNumber(m.durationS),
      runTimeTicks := SecondsAsTicks(m.durationS, b.runTimeTicks),
      productionYear := OrNumber(m.year, b.productionYear),
      genres := OrArray(m.genres, b.genres))
  }

  function ApplyPodcast(b: MediaItem, p: PodcastEpisodeMetadata): MediaItem {
    b.(
      name := p.title,
      showName := KeepText(p.showName),
      episodeTitle := Some(p.title),
      overview := OrText(p.description, b.overview),
      pubDate := KeepText(p.pubDate),
      duration := KeepNumber(p.durationS),
      runTimeTicks := SecondsAsTicks(p.durationS, b.runTimeTicks),
      imageTags := PosterTags(p.imageUrl, b.imageTags))
  }

  /** The per-type fields copied from flat metadata when there is no envelope. */
  function ApplyFlat(b: MediaItem, meta: Metadata): MediaItem {
    b.(
      originalTitle := meta.originalTitle, releaseDate := meta.releaseDate,
      runtimeMinutes := meta.runtimeMinutes, cast := meta.cast, director := meta.director,
      seriesName := meta.seriesName, seasonNumber := meta.seasonNumber,
      episodeNumber := meta.episodeNumber, airDate := meta.airDate,
      artist := meta.artist, album := meta.album, albumArtist := meta.albumArtist,
      trackNumber := meta.trackNumber, discNumber := meta.discNumber, duration := meta.duration,
      showName := meta.showName, pubDate := meta.pubDate, episodeTitle := meta.episodeTitle,
      captureDate := meta.captureDate, deviceMake := meta.deviceMake, deviceModel := meta.deviceModel,
      gpsLat := meta.gpsLat, gpsLon := meta.gpsLon, albumName := meta.albumName,
      platform := meta.platform, channelName := meta.channelName, uploader := meta.uploader)
  }

  /** Which part of the envelope the transform reads. */
  datatype Branch = MovieBranch | TvBranch | MusicBranch | PodcastBranch | EmptyEnvelope | NoEnvelope

  function BranchOf(enriched: Option<EnrichedMetadata>): Branch {
    if enriched.None? then NoEnvelope
    else if enriched.value.movie.Some? then MovieBranch
    else if enriched.value.tvShow.Some? || enriched.value.tvEpisode.Some? then TvBranch
    else if enriched.value.music.Some? then MusicBranch
    else if enriched.value.podcast.Some? then PodcastBranch
    else EmptyEnvelope
  }

  /** The metadata record the transform reads: `detail.metadata || {}`. */
  function MetaOf(detail: MediaDetail): Metadata {
    detail.metadata.GetOr(EmptyMetadata)
  }

  /** `transformMediaItem`: identity, type and a zeroed playback state always
      come from the detail; `Genres` is always an array; the name comes from
      the branch the envelope selects. */
  function TransformMediaItem(detail: MediaDetail): (r: MediaItem)
    ensures r.id == detail.mediaId
    ensures r.itemType == detail.mediaType && r.mediaType == Some(detail.mediaType)
    ensures r.sourceType == Some(detail.sourceType)
    ensures r.userData == Some(ZeroUserData)
    ensures r.genres.Some?
    ensures var flat := Some(MetaOf(detail).genres.GetOr([]));
            r.genres == match BranchOf(detail.enriched)
      case MovieBranch => OrArray(detail.enriched.value.movie.value.genres, flat)
      case TvBranch =>
        if detail.enriched.value.tvShow.Some? then OrArray(detail.enriched.value.tvShow.value.genres, flat) else flat
      case MusicBranch => OrArray(detail.enriched.value.music.value.genres, flat)
      case _ => flat
    ensures r.name == match BranchOf(detail.enriched)
      case MovieBranch => detail.enriched.value.movie.value.title
      case TvBranch =>
        if detail.enriched.value.tvEpisode.Some? then detail.enriched.value.tvEpisode.value.name
        else BaseName(detail, MetaOf(detail))
      case MusicBranch => detail.enriched.value.music.value.title
      case PodcastBranch => detail.enriched.value.podcast.value.title
      case _ => BaseName(detail, MetaOf(detail))
  {
    var meta := MetaOf(detail);
    var b := BaseItem(detail, meta);
    match detail.enriched
    case None => ApplyFlat(b, meta)
    case Some(e) =>
      if e.movie.Some? then ApplyMovie(b, e.movie.value)
      else if e.tvShow.Some? || e.tvEpisode.Some? then ApplyTv(b, e.tvShow, e.tvEpisode)
      else if e.music.Some? then ApplyMusic(b, e.music.value)
      else if e.podcast.Some? then ApplyPodcast(b, e.podcast.value)
      else b
  }

  /** An enriched value replaces the flat one only when it is truthy: for a
      movie envelope, the overview, year, rating, poster and backdrop fall
      back to the flat metadata, and the running time to `duration_seconds`.
      The genre list replaces the flat one whenever it is present, even
      empty, since an array is always truthy. */
  lemma MovieOverridesOnlyTruthy(detail: MediaDetail)
    requires BranchOf(detail.enriched) == MovieBranch
    ensures var m := detail.enriched.value.movie.value;
            var meta := MetaOf(detail);
            var r := TransformMediaItem(detail);
            && r.overview == (if TruthyText(m.overview) then m.overview else OrText(meta.description, meta.overview))
            && r.productionYear == (if TruthyNumber(m.year) then m.year else meta.year)
            && r.communityRating == (if TruthyNumber(m.voteAverage) then m.voteAverage else meta.rating)
            && r.posterUrl == (if TruthyText(m.posterUrl) then m.posterUrl else meta.posterUrl)
            && r.backdropUrl == (if TruthyText(m.backdropUrl) then m.backdropUrl else meta.backdropUrl)
            && r.genres == (if m.genres.Some? then m.genres else Some(meta.genres.GetOr([])))
            && r.imageTags.Some? == (TruthyText(m.posterUrl) || TruthyText(meta.posterUrl))
            && r.runTimeTicks == (if TruthyNumber(m.runtimeMin) then Some(m.runtimeMin.value * 600000000.0)
                                  else if TruthyNumber(meta.durationSeconds) then Some(meta.durationSeconds.value * 10000000.0)
                                  else None)
  {
  }

  /** The flat per-type fields are copied only when there is no envelope at
      all; an envelope, even an empty one, leaves the personal and video
      fields unset, and only a music envelope sets the artist. */
  lemma FlatFieldsOnlyWithoutEnvelope(detail: MediaDetail)
    ensures var r := TransformMediaItem(detail);
            var meta := MetaOf(detail);
            var branch := BranchOf(detail.enriched);
            && (branch == NoEnvelope ==>
                  r.captureDate == meta.captureDate && r.deviceMake == meta.deviceMake
                  && r.gpsLat == meta.gpsLat && r.platform == meta.platform
                  && r.uploader == meta.uploader && r.albumArtist == meta.albumArtist
                  && r.artist == meta.artist && r.seriesName == meta.seriesName)
            && (branch != NoEnvelope ==>
                  r.captureDate.None? && r.deviceMake.None? && r.deviceModel.None?
                  && r.gpsLat.None? && r.gpsLon.None? && r.albumName.None?
                  && r.platform.None? && r.channelName.None? && r.uploader.None?
                  && r.albumArtist.None?)
            && (branch != NoEnvelope && branch != MusicBranch ==> r.artist.None? && r.album.None?)
            && (branch != NoEnvelope && branch != MovieBranch ==>
                  r.tagline.None? && r.budget.None? && r.director.None? && r.originalTitle.None?)
  {
  }

  /** A tv envelope with an episode takes the episode's name and numbers and
      falls back to the show for the series name, overview and cast; a show
      alone keeps the base name and contributes genres, year and poster. */
  lemma TvEpisodeFallsBackToShow(detail: MediaDetail)
    requires BranchOf(detail.enriched) == TvBranch
    ensures var e := detail.enriched.value;
            var r := TransformMediaItem(detail);
            && (e.tvEpisode.Some? ==>
                  r.seasonNumber == Some(e.tvEpisode.value.seasonNumber)
                  && r.episodeNumber == Some(e.tvEpisode.value.episodeNumber)
                  && (!TruthyText(e.tvEpisode.value.seriesName) && e.tvShow.Some? && e.tvShow.value.name != ""
                      ==> r.seriesName == Some(e.tvShow.value.name))
                  && (e.tvEpisode.value.cast.None? && e.tvShow.Some? ==> r.cast == CastNames(e.tvShow.value.cast)))
            && (e.tvEpisode.None? ==> r.name == BaseName(detail, MetaOf(detail)) && r.seasonNumber.None?)
            && (e.tvShow.Some? ==> r.genres == OrArray(e.tvShow.value.genres, Some(MetaOf(detail).genres.GetOr([]))))
  {
  }

  /** A music envelope names the item by the track title; its year and
      genres fall back to the flat metadata, and the running time is the
      truthy `duration_s` in ticks, or else `duration_seconds` in ticks. */
  lemma MusicFallsBackToFlat(detail: MediaDetail)
    requires BranchOf(detail.enriched) == MusicBranch
    ensures var m := detail.enriched.value.music.value;
            var meta := MetaOf(detail);
            var r := TransformMediaItem(detail);
            && r.name == m.title
            && r.productionYear == (if TruthyNumber(m.year) then m.year else meta.year)
            && r.genres == (if m.genres.Some? then m.genres else Some(meta.genres.GetOr([])))
            && r.duration == KeepNumber(m.durationS)
            && r.runTimeTicks == (if TruthyNumber(m.durationS) then Some(m.durationS.value * 10000000.0)
                                  else if TruthyNumber(meta.durationSeconds) then Some(meta.durationSeconds.value * 10000000.0)
                                  else None)
            && r.overview == OrText(meta.description, meta.overview)
            && r.artist == KeepText(m.artist) && r.album == KeepText(m.album)
  {
  }

  /** A podcast envelope names the item and its episode by the episode
      title; the overview falls back to the flat description or overview,
      the running time to `duration_seconds`, and the poster flag to the
      flat poster; year and genres stay flat. */
  lemma PodcastFallsBackToFlat(detail: MediaDetail)
    requires BranchOf(detail.enriched) == PodcastBranch
    ensures var p := detail.enriched.value.podcast.value;
            var meta := MetaOf(detail);
            var r := TransformMediaItem(detail);
            && r.name == p.title && r.episodeTitle == Some(p.title)
            && r.overview == (if TruthyText(p.description) then p.description else OrText(meta.description, meta.overview))
            && r.runTimeTicks == (if TruthyNumber(p.durationS) then Some(p.durationS.value * 10000000.0)
                                  else if TruthyNumber(meta.durationSeconds) then Some(meta.durationSeconds.value * 10000000.0)
                                  else None)
            && r.imageTags.Some? == (TruthyText(p.imageUrl) || TruthyText(meta.posterUrl))
            && r.showName == KeepText(p.showName)
            && r.productionYear == meta.year && r.genres == Some(meta.genres.GetOr([]))
  {
  }

  // ---------------------------------------------------------------------
  // getMedia
  // ---------------------------------------------------------------------

  datatype ImageFile = ImageFile(filePath: string)

  /** One record of a `/{route}/all` listing. */
  datatype AllRecord = AllRecord(
    fileHash: string,
    embeddingHash: string,
    title: string,
    year: Option<Number>,
    overview: Option<string>,
    poster: Option<ImageFile>,
    backdrop: Option<ImageFile>,
    voteAverage: Option<Number>,
    genres: Option<seq<string>>,
    runtimeMin: Option<Number>,
    tagline: Option<string>,
    releaseDate: Option<string>,
    cast: Option<seq<CastMember>>)

  function FilePath(f: Option<ImageFile>): Option<string> {
    if f.Some? then Some(f.value.filePath) else None
  }

  /** The media detail the adapter builds from an `/all` record: keyed by the
      file hash, with a movie envelope only for movies. */
  function AllRecordToDetail(t: MediaType, rec: AllRecord): (d: MediaDetail)
    ensures d.mediaId == rec.fileHash && d.fileHash == Some(rec.fileHash)
    ensures d.mediaType == TypeName(t) && d.sourceType == "catalog"
    ensures d.enriched.Some? <==> t == Movie
  {
    var meta := EmptyMetadata.(
      title := Some(rec.title), year := rec.year, description := rec.overview, overview := rec.overview,
      posterUrl := FilePath(rec.poster), backdropUrl := FilePath(rec.backdrop),
      rating := rec.voteAverage, genres := rec.genres,
      durationSeconds := if TruthyNumber(rec.runtimeMin) then Some(rec.runtimeMin.value * 60.0) else None);
    var movie := MovieMetadata(
      rec.title, Some(rec.title), KeepText(rec.tagline), rec.overview, rec.releaseDate, rec.year,
      rec.runtimeMin, None, None, rec.genres, rec.voteAverage, rec.cast, None,
      FilePath(rec.poster), FilePath(rec.backdrop));
    MediaDetail(rec.fileHash, TypeName(t), rec.title, "catalog", rec.embeddingHash, Some(rec.fileHash),
      Some(meta), if t == Movie then Some(EnrichedMetadata(Some(movie), None, None, None, None)) else None)
  }

  /** `{ Items, TotalRecordCount }` */
  datatype MediaPage = MediaPage(items: seq<MediaItem>, totalRecordCount: int)

  function AllUrl(baseUrl: string, t: MediaType): string {
    baseUrl + "/" + RouteName(GetTypeRoute(t)) + "/all"
  }

  /** `getMedia(type)` for one type: a failed response throws, otherwise every
      record becomes one item, in order, and the count is the record count. */
  function GetMediaOfType(t: MediaType, fetched: Fetched<seq<AllRecord>>): (r: Result<MediaPage>)
    ensures r.Ok? <==> fetched.Ok()
    ensures fetched.Response? && !fetched.Ok() ==> r == Err("Failed to fetch media")
    ensures r.Ok? ==> var data := fetched.body;
      && |r.value.items| == |data| == r.value.totalRecordCount
      && forall i :: 0 <= i < |data| ==>
           r.value.items[i] == TransformMediaItem(AllRecordToDetail(t, data[i]))
           && r.value.items[i].id == data[i].fileHash
           && r.value.items[i].itemType == TypeName(t)
  {
    match fetched
    case Rejected(reason) => Err(reason)
    case Response(_, data) =>
      if !fetched.Ok() then Err("Failed to fetch media")
      else Ok(MediaPage(seq(|data|, i requires 0 <= i < |data| => TransformMediaItem(AllRecordToDetail(t, data[i]))), |data|))
  }

  /** A movie listed by `/movies/all` is named by its title and carries it as
      its original title. */
  lemma ListedMovieNamedByTitle(rec: AllRecord)
    ensures TransformMediaItem(AllRecordToDetail(Movie, rec)).name == rec.title
    ensures rec.title != "" ==> TransformMediaItem(AllRecordToDetail(Movie, rec)).originalTitle == Some(rec.title)
  {
  }

  /** `Promise.all` over some types: all pages in order, or the first failure. */
  function FanOut(types: seq<MediaType>, responses: MediaType -> Fetched<seq<AllRecord>>): Result<MediaPage> {
    if types == [] then Ok(MediaPage([], 0))
    else
      match GetMediaOfType(types[0], responses(types[0]))
      case Err(e) => Err(e)
      case Ok(first) =>
        match FanOut(types[1..], responses)
        case Err(e) => Err(e)
        case Ok(rest) => Ok(MediaPage(first.items + rest.items, first.totalRecordCount + rest.totalRecordCount))
  }

  /** `getMedia(null)`. */
  function GetMediaAll(responses: MediaType -> Fetched<seq<AllRecord>>): Result<MediaPage> {
    FanOut(AllTypes, responses)
  }

  /** The sum of the record counts of some types. */
  function RecordCount(types: seq<MediaType>, responses: MediaType -> Fetched<seq<AllRecord>>): nat {
    if types == [] then 0
    else (if responses(types[0]).Response? then |responses(types[0]).body| else 0) + RecordCount(types[1..], responses)
  }

  /** The fan-out succeeds exactly when every type answers OK; then the items
      are each type's items in order and the total is the sum of the counts,
      which is also the number of items. */
  lemma {:induction false} FanOutSpec(types: seq<MediaType>, responses: MediaType -> Fetched<seq<AllRecord>>)
    ensures FanOut(types, responses).Ok? <==> forall t :: t in types ==> responses(t).Ok()
    ensures FanOut(types, responses).Ok? ==>
      var p := FanOut(types, responses).value;
      p.totalRecordCount == |p.items| == RecordCount(types, responses)
      && (types != [] ==> p.items[..|responses(types[0]).body|] == GetMediaOfType(types[0], responses(types[0])).value.items)
  {
    if types != [] {
      FanOutSpec(types[1..], responses);
      assert forall t :: t in types <==> t == types[0] || t in types[1..];
      var r := FanOut(types, responses);
      if r.Ok? {
        var first := GetMediaOfType(types[0], responses(types[0])).value;
        assert r.value.items[..|first.items|] == first.items;
      }
    }
  }

  // ---------------------------------------------------------------------
  // getMediaById
  // ---------------------------------------------------------------------

  /** `getMediaById(id, type)` with a type: a failed response is "not found". */
  function LookupOfType(fetched: Fetched<MediaDetail>): (r: Result<Option<MediaItem>>)
    ensures r.Ok? <==> fetched.Response?
    ensures r.Ok? ==> (r.value.Some? <==> fetched.Ok())
    ensures r.Ok? && r.value.Some? ==> r.value.value == TransformMediaItem(fetched.body)
  {
    match fetched
    case Rejected(reason) => Err(reason)
    case Response(_, body) => if fetched.Ok() then Ok(Some(TransformMediaItem(body))) else Ok(None)
  }

  /** The first step that does not answer "not found", in order: its answer
      (an error or a value) ends the probe. */
  function FirstFound<A, B>(xs: seq<A>, step: A -> Result<Option<B>>): Result<Option<B>> {
    if xs == [] then Ok(None)
    else if step(xs[0]) != Ok(None) then step(xs[0])
    else FirstFound(xs[1..], step)
  }

  /** The probe answers "not found" exactly when every step does. */
  lemma {:induction false} FirstFoundMisses<A, B>(xs: seq<A>, step: A -> Result<Option<B>>)
    ensures FirstFound(xs, step) == Ok(None) <==> forall i :: 0 <= i < |xs| ==> step(xs[i]) == Ok(None)
  {
    if xs != [] && step(xs[0]) == Ok(None) {
      FirstFoundMisses(xs[1..], step);
      assert forall i :: 0 < i < |xs| ==> xs[i] == xs[1..][i - 1];
    }
  }

  /** Any other answer is that of the first step that does not answer "not
      found". */
  lemma {:induction false} FirstFoundAnswers<A, B>(xs: seq<A>, step: A -> Result<Option<B>>) returns (i: nat)
    requires FirstFound(xs, step) != Ok(None)
    ensures i < |xs| && FirstFound(xs, step) == step(xs[i])
    ensures forall m :: 0 <= m < i ==> step(xs[m]) == Ok(None)
  {
    if step(xs[0]) != Ok(None) {
      i := 0;
    } else {
      var j := FirstFoundAnswers(xs[1..], step);
      i := j + 1;
      assert forall m :: 0 < m <= j ==> xs[m] == xs[1..][m - 1];
    }
  }

  /** The probe over some types: the first type that answers OK wins. */
  function FirstHit(types: seq<MediaType>, lookup: MediaType -> Fetched<MediaDetail>): Result<Option<MediaItem>> {
    FirstFound(types, (t: MediaType) => LookupOfType(lookup(t)))
  }

  /** What `getMediaById` resolves with. */
  function GetMediaByIdSpec(t: Option<MediaType>, lookup: MediaType -> Fetched<MediaDetail>): Result<Option<MediaItem>> {
    if t.Some? then LookupOfType(lookup(t.value)) else FirstHit(AllTypes, lookup)
  }

  /** The probe returns the item of the first type, in fan-out order, whose
      endpoint answers OK; it reports "not found" only when every endpoint
      answered without OK. */
  lemma FirstHitSpec(types: seq<MediaType>, lookup: MediaType -> Fetched<MediaDetail>)
    ensures FirstHit(types, lookup) == Ok(None) <==>
            forall i :: 0 <= i < |types| ==> lookup(types[i]).Response? && !lookup(types[i]).Ok()
    ensures FirstHit(types, lookup).Ok? && FirstHit(types, lookup).value.Some? ==>
            exists i :: 0 <= i < |types| && lookup(types[i]).Ok()
              && FirstHit(types, lookup).value.value == TransformMediaItem(lookup(types[i]).body)
              && forall m :: 0 <= m < i ==> lookup(types[m]).Response? && !lookup(types[m]).Ok()
  {
    var step := (t: MediaType) => LookupOfType(lookup(t));
    FirstFoundMisses(types, step);
    var r := FirstHit(types, lookup);
    if r.Ok? && r.value.Some? {
      var i := FirstFoundAnswers(types, step);
      assert lookup(types[i]).Ok() && r.value.value == TransformMediaItem(lookup(types[i]).body);
    }
  }

  /** `getMediaById`: with a type, one lookup; without, the six types are
      tried in order and the loop stops at the first item found. */
  method GetMediaById(t: Option<MediaType>, lookup: MediaType -> Fetched<MediaDetail>)
    returns (r: Result<Option<MediaItem>>)
    ensures r == GetMediaByIdSpec(t, lookup)
  {
    if t.Some? {
      return LookupOfType(lookup(t.value));
    }
    var i := 0;
    while i < |AllTypes|
      invariant 0 <= i <= |AllTypes|
      invariant FirstHit(AllTypes, lookup) == FirstHit(AllTypes[i..], lookup)
    {
      var item := LookupOfType(lookup(AllTypes[i]));
      if item.Err? {
        return Err(item.error);
      }
      if item.value.Some? {
        return item;
      }
      assert AllTypes[i..][1..] == AllTypes[i + 1..];
      i := i + 1;
    }
    return Ok(None);
  }

  // ---------------------------------------------------------------------
  // vectorSearch
  // ---------------------------------------------------------------------

  /** `{ items, scores }`: the hits and their scores, index by index. */
  datatype ScoredItems = ScoredItems(items: seq<MediaItem>, scores: seq<Number>)

  /** A hit together with its score, as the merge pairs them. */
  datatype Scored = Scored(item: MediaItem, score: Number)

  /** `options.k || 20` */
  function TopK(k: Option<int>): int {
    if k.Some? && k.value != 0 then k.value else 20
  }

  /** The item a search hit becomes: no overview, zeroed playback state. */
  function HitItem(h: SearchResult): (r: MediaItem)
    ensures r.id == h.mediaId && r.name == h.title && r.itemType == h.mediaType
    ensures r.overview.None? && r.userData == Some(ZeroUserData)
  {
    BareItem(h.mediaId, h.title, h.mediaType).(mediaType := Some(h.mediaType), userData := Some(ZeroUserData))
  }

  /** The search request body: `{ query, k: options.k || 20 }`. */
  datatype SearchRequestBody = SearchRequestBody(query: string, k: int)

  function SearchRequestFor(query: string, k: Option<int>): (r: SearchRequestBody)
    ensures r.query == query
    ensures TruthyInt(k) ==> r.k == k.value
    ensures !TruthyInt(k) ==> r.k == 20
    ensures r.k == 20 <==> k.None? || k.value == 0 || k.value == 20
  {
    SearchRequestBody(query, TopK(k))
  }

  /** `vectorSearch(query, type)`: one hit per result, in the backend's order. */
  function VectorSearchOfType(fetched: Fetched<SearchResponse>): (r: Result<seq<Scored>>)
    ensures r.Ok? <==> fetched.Ok()
    ensures fetched.Response? && !fetched.Ok() ==> r == Err("Search failed")
    ensures r.Ok? ==> |r.value| == |fetched.body.results|
    ensures r.Ok? ==> forall i :: 0 <= i < |r.value| ==>
      r.value[i] == Scored(HitItem(fetched.body.results[i]), fetched.body.results[i].score)
  {
    match fetched
    case Rejected(reason) => Err(reason)
    case Response(_, body) =>
      if !fetched.Ok() then Err("Search failed")
      else Ok(seq(|body.results|, i requires 0 <= i < |body.results| =>
                Scored(HitItem(body.results[i]), body.results[i].score)))
  }

  /** `Promise.all` over the per-type searches, flattened in fan-out order. */
  function SearchFanOut(types: seq<MediaType>, responses: MediaType -> Fetched<SearchResponse>): Result<seq<Scored>> {
    if types == [] then Ok([])
    else
      match VectorSearchOfType(responses(types[0]))
      case Err(e) => Err(e)
      case Ok(first) =>
        match SearchFanOut(types[1..], responses)
        case Err(e) => Err(e)
        case Ok(rest) => Ok(first + rest)
  }

  lemma {:induction false} SearchFanOutFails(types: seq<MediaType>, responses: MediaType -> Fetched<SearchResponse>)
    ensures SearchFanOut(types, responses).Ok? <==> forall t :: t in types ==> responses(t).Ok()
  {
    if types != [] {
      SearchFanOutFails(types[1..], responses);
      assert forall t :: t in types <==> t == types[0] || t in types[1..];
    }
  }

  function KeyByScore(s: seq<Scored>): (r: seq<Keyed<Scored>>)
    ensures |r| == |s| && forall i :: 0 <= i < |s| ==> r[i] == Keyed(Num(s[i].score), s[i])
  {
    seq(|s|, i requires 0 <= i < |s| => Keyed(Num(s[i].score), s[i]))
  }

  function Unzip(s: seq<Keyed<Scored>>): (r: ScoredItems)
    ensures |r.items| == |r.scores| == |s|
    ensures forall i :: 0 <= i < |s| ==> r.items[i] == s[i].value.item && r.scores[i] == s[i].value.score
  {
    ScoredItems(seq(|s|, i requires 0 <= i < |s| => s[i].value.item),
                seq(|s|, i requires 0 <= i < |s| => s[i].value.score))
  }

  /** The merged hits of a successful fan-out, best score first, ties in
      fan-out order, cut at `k || 20`. */
  function MergeTopK(combined: seq<Scored>, k: Option<int>): ScoredItems {
    Unzip(JsSlice(StableSort(KeyByScore(combined), true), 0, TopK(k)))
  }

  /** `vectorSearch(query)` with no type: what it resolves with. */
  function VectorSearchAllSpec(responses: MediaType -> Fetched<SearchResponse>, k: Option<int>): Result<ScoredItems> {
    match SearchFanOut(AllTypes, responses)
    case Err(e) => Err(e)
    case Ok(combined) => Ok(MergeTopK(combined, k))
  }

  /** `vectorSearch(query)` with no type: the merged list is sorted in place
      and cut at `k`. */
  method VectorSearchAll(responses: MediaType -> Fetched<SearchResponse>, k: Option<int>)
    returns (r: Result<ScoredItems>)
    ensures r == VectorSearchAllSpec(responses, k)
  {
    var fanned := SearchFanOut(AllTypes, responses);
    if fanned.Err? {
      return Err(fanned.error);
    }
    var combined := fanned.value;
    var keyed := KeyByScore(combined);
    var a := new Keyed<Scored>[|keyed|](i requires 0 <= i < |keyed| => keyed[i]);
    assert a[..] == keyed;
    SortInPlace(a, true);
    return Ok(Unzip(JsSlice(a[..], 0, TopK(k))));
  }

  /** Keyed hits whose keys are their own scores, sorted in descending key
      order, have non-increasing scores. */
  lemma SortedByScore(t: seq<Keyed<Scored>>)
    requires Sorted(t, true)
    requires forall i :: 0 <= i < |t| ==> t[i].key == Num(t[i].value.score)
    ensures forall i, j :: 0 <= i < j < |t| ==> t[i].value.score >= t[j].value.score
  {
    forall i, j | 0 <= i < j < |t| ensures t[i].value.score >= t[j].value.score {
      assert !Precedes(t[j].key, t[i].key, true);
    }
  }

  /** The merged hits: scores never increase and each score is its own
      item's. */
  lemma MergeTopKSorted(combined: seq<Scored>, k: Option<int>)
    ensures var r := MergeTopK(combined, k);
      && |r.items| == |r.scores|
      && forall i, j :: 0 <= i < j < |r.scores| ==> r.scores[i] >= r.scores[j]
  {
    var keyed := KeyByScore(combined);
    var sorted := StableSort(keyed, true);
    StableSortSpec(keyed, true);
    forall i | 0 <= i < |sorted| ensures sorted[i].key == Num(sorted[i].value.score) {
      assert sorted[i] in multiset(keyed);
    }
    SortedByScore(sorted);
    var top := JsSlice(sorted, 0, TopK(k));
    assert forall i :: 0 <= i < |top| ==> top[i] == sorted[i];
  }

  /** The merged hits paired back with their scores. */
  function Kept(r: ScoredItems): (s: seq<Scored>)
    ensures |s| == if |r.items| < |r.scores| then |r.items| else |r.scores|
    ensures forall i :: 0 <= i < |s| ==> s[i] == Scored(r.items[i], r.scores[i])
  {
    var n := if |r.items| < |r.scores| then |r.items| else |r.scores|;
    seq(n, i requires 0 <= i < n => Scored(r.items[i], r.scores[i]))
  }

  /** The fan-out's hits sorted by score: the same hits, each as often, in
      non-increasing score order. */
  lemma SortedByScoreValues(combined: seq<Scored>)
    ensures var v := Values(StableSort(KeyByScore(combined), true));
            && multiset(v) == multiset(combined)
            && forall i, j :: 0 <= i < j < |v| ==> v[i].score >= v[j].score
  {
    var keyed := KeyByScore(combined);
    SortedValues(keyed, true, (s: Scored) => Num(s.score));
    assert Values(keyed) == combined;
    var v := Values(StableSort(keyed, true));
    forall i, j | 0 <= i < j < |v| ensures v[i].score >= v[j].score {
      assert !Precedes(Num(v[j].score), Num(v[i].score), true);
    }
  }

  /** Cutting a sorted list at `k || 20` and pairing the items back with
      their scores keeps a prefix of its values. */
  lemma TopIsPrefix(sorted: seq<Keyed<Scored>>, k: Option<int>) returns (n: nat)
    ensures n <= |sorted| && Kept(Unzip(JsSlice(sorted, 0, TopK(k)))) == Values(sorted)[..n]
  {
    var top := JsSlice(sorted, 0, TopK(k));
    n := |top|;
    assert top == sorted[..n];
    var kept := Kept(Unzip(top));
    forall i | 0 <= i < n ensures kept[i] == Values(sorted)[i] {
      assert kept[i] == Scored(top[i].value.item, top[i].value.score);
    }
  }

  /** The merge keeps a prefix of the fan-out's hits rearranged by
      non-increasing score. */
  lemma MergeTopKPrefix(combined: seq<Scored>, k: Option<int>) returns (v: seq<Scored>, n: nat)
    ensures multiset(v) == multiset(combined)
    ensures forall i, j :: 0 <= i < j < |v| ==> v[i].score >= v[j].score
    ensures n <= |v| && Kept(MergeTopK(combined, k)) == v[..n]
  {
    var sorted := StableSort(KeyByScore(combined), true);
    SortedByScoreValues(combined);
    v := Values(sorted);
    n := TopIsPrefix(sorted, k);
  }

  /** The merged hits, with their scores, are per-type hits, each kept at
      most as often as the fan-out returned it. */
  lemma MergeTopKFromFanOut(combined: seq<Scored>, k: Option<int>)
    ensures var kept := Kept(MergeTopK(combined, k));
      && multiset(kept) <= multiset(combined)
      && forall i :: 0 <= i < |kept| ==> kept[i] in combined
  {
    var v, n := MergeTopKPrefix(combined, k);
    assert v == v[..n] + v[n..];
    var kept := Kept(MergeTopK(combined, k));
    forall i | 0 <= i < |kept| ensures kept[i] in combined {
      assert kept[i] in multiset(v);
    }
  }

  /** The merge keeps the best hits: every fan-out hit it drops scores at
      most as high as every hit it keeps. */
  lemma MergeTopKKeepsBest(combined: seq<Scored>, k: Option<int>)
    ensures var kept := Kept(MergeTopK(combined, k));
      forall x, i :: x in multiset(combined) - multiset(kept) && 0 <= i < |kept| ==> x.score <= kept[i].score
  {
    var v, n := MergeTopKPrefix(combined, k);
    assert v == v[..n] + v[n..];
    var kept := Kept(MergeTopK(combined, k));
    assert multiset(combined) - multiset(kept) == multiset(v[n..]);
    forall x, i | x in multiset(combined) - multiset(kept) && 0 <= i < |kept|
      ensures x.score <= kept[i].score
    {
      var j :| 0 <= j < |v[n..]| && v[n..][j] == x;
      assert v[n + j] == x && kept[i] == v[i];
    }
  }

  /** For a positive `k` the merge keeps `min(k, total)` hits. */
  lemma MergeTopKLength(combined: seq<Scored>, k: Option<int>)
    requires TopK(k) > 0
    ensures |MergeTopK(combined, k).items| == if TopK(k) < |combined| then TopK(k) else |combined|
  {
    SliceFromStart(StableSort(KeyByScore(combined), true), TopK(k));
  }

  /** Hits with equal scores stay in fan-out order: the hits with score `v`
      in the sorted merge are exactly those of the fan-out, in order. */
  lemma MergeKeepsTies(combined: seq<Scored>, v: Number)
    ensures WithKey(StableSort(KeyByScore(combined), true), Num(v)) == WithKey(KeyByScore(combined), Num(v))
  {
    StableSortSpec(KeyByScore(combined), true);
  }

  // ---------------------------------------------------------------------
  // catalog, streaming and login
  // ---------------------------------------------------------------------

  /** The query string of `searchCatalogMovies`: the limit defaults to 10
      only when missing, and a falsy year is left out. */
  function CatalogSearchParams(query: string, limit: Option<int>, year: Option<int>): (r: seq<(string, string)>)
    ensures |r| >= 2 && r[0] == ("query", query)
    ensures r[1] == ("limit", IntToString(if limit.Some? then limit.value else 10))
    ensures |r| == 3 <==> year.Some? && year.value != 0
    ensures |r| == 2 || (year.Some? && r[2] == ("year", IntToString(year.value)))
  {
    var params := [("query", query), ("limit", IntToString(Coalesce(limit, 10)))];
    if year.Some? && year.value != 0 then params + [("year", IntToString(year.value))] else params
  }

  /** `searchCatalogMovies`: a failed response throws. */
  function SearchCatalogMovies(fetched: Fetched<CatalogMatchResponse>): (r: Result<CatalogMatchResponse>)
    ensures r.Ok? <==> fetched.Ok()
    ensures fetched.Rejected? ==> r == Err(fetched.reason)
    ensures fetched.Response? && !fetched.Ok() ==> r == Err("Catalog search failed")
    ensures r.Ok? ==> r.value == fetched.body
  {
    match fetched
    case Rejected(reason) => Err(reason)
    case Response(_, body) => if fetched.Ok() then Ok(body) else Err("Catalog search failed")
  }

  /** The download payload: `execute` defaults to true only when missing. */
  function DownloadPayload(request: CatalogDownloadRequest): (r: CatalogDownloadRequest)
    ensures r.matchKey == request.matchKey && r.execute.Some?
    ensures r.execute.value == (request.execute.None? || request.execute.value)
  {
    CatalogDownloadRequest(request.matchKey, Some(Coalesce(request.execute, true)))
  }

  /** `downloadCatalogMovie`: a failed response throws. */
  function DownloadCatalogMovie(fetched: Fetched<CatalogDownloadResponse>): (r: Result<CatalogDownloadResponse>)
    ensures r.Ok? <==> fetched.Ok()
    ensures fetched.Rejected? ==> r == Err(fetched.reason)
    ensures fetched.Response? && !fetched.Ok() ==> r == Err("Catalog download failed")
    ensures r.Ok? ==> r.value == fetched.body
  {
    match fetched
    case Rejected(reason) => Err(reason)
    case Response(_, body) => if fetched.Ok() then Ok(body) else Err("Catalog download failed")
  }

  /** The stream URL; a missing type falls back to movies. */
  function GetStreamUrl(baseUrl: string, mediaId: string, t: Option<MediaType>): (r: string)
    ensures r == baseUrl + "/" + RouteName(GetTypeRoute(t.GetOr(Movie))) + "/media/" + mediaId + "/stream"
  {
    baseUrl + "/" + RouteName(GetTypeRoute(if t.Some? then t.value else Movie)) + "/media/" + mediaId + "/stream"
  }

  /** A stream URL without a type is the movie stream URL. */
  lemma StreamUrlDefaultsToMovie(baseUrl: string, mediaId: string)
    ensures GetStreamUrl(baseUrl, mediaId, None) == GetStreamUrl(baseUrl, mediaId, Some(Movie))
    ensures GetStreamUrl(baseUrl, mediaId, None) == baseUrl + "/movies/media/" + mediaId + "/stream"
  {
  }

  /** The body of `/auth/login` and `/auth/setup`. */
  datatype AuthResponse = AuthResponse(accessToken: string, admin: Admin, participants: Option<seq<Participant>>)

  /** What `login` resolves with. */
  datatype LoginResult = LoginResult(accessToken: string, user: User, admin: Admin, participants: Option<seq<Participant>>)

  /** The local part of an e-mail address: `email.split('@')[0]`. */
  function LocalPart(email: string): (r: string)
    ensures '@' !in r
    ensures StartsWith(email, r)
    ensures |r| == |email| || email[|r|] == '@'
  {
    var parts := Split(email, '@');
    JoinSplit(email, '@');
    SplitHeadPrefix(email, '@');
    parts[0]
  }

  /** The first piece of a split is the text before the first separator:
      a prefix that ends at the end of the text or at a separator. */
  lemma {:induction false} SplitHeadPrefix(s: string, sep: char)
    ensures StartsWith(s, Split(s, sep)[0])
    ensures var h := Split(s, sep)[0]; |h| == |s| || s[|h|] == sep
  {
    if s != [] && s[0] != sep {
      SplitHeadPrefix(s[1..], sep);
      var h := Split(s, sep)[0];
      assert h == [s[0]] + Split(s[1..], sep)[0];
      if |h| < |s| {
        assert s[|h|] == s[1..][|h| - 1];
      }
    }
  }

  /** `login`: a failed response throws; the user is named by the admin's
      display name, or else by the local part of the e-mail address. */
  function Login(fetched: Fetched<AuthResponse>): (r: Result<LoginResult>)
    ensures r.Ok? <==> fetched.Ok()
    ensures fetched.Rejected? ==> r == Err(fetched.reason)
    ensures fetched.Response? && !fetched.Ok() ==> r == Err("Login failed")
    ensures r.Ok? ==> r.value.admin == fetched.body.admin && r.value.participants == fetched.body.participants
    ensures r.Ok? ==> var admin := fetched.body.admin;
      && r.value.user.id == admin.adminId && r.value.user.serverId == "bitharbor"
      && r.value.accessToken == fetched.body.accessToken
      && (admin.displayName != "" ==> r.value.user.name == admin.displayName)
      && (admin.displayName == "" ==> StartsWith(admin.email, r.value.user.name) && '@' !in r.value.user.name
                                      && (|r.value.user.name| == |admin.email| || admin.email[|r.value.user.name|] == '@'))
  {
    match fetched
    case Rejected(reason) => Err(reason)
    case Response(_, body) =>
      if !fetched.Ok() then Err("Login failed")
      else
        var name := if body.admin.displayName != "" then body.admin.displayName else LocalPart(body.admin.email);
        Ok(LoginResult(body.accessToken, User(body.admin.adminId, name, "bitharbor", false), body.admin, body.participants))
  }

  /** `setup`: a failed response throws. */
  function Setup(fetched: Fetched<AuthResponse>): (r: Result<AuthResponse>)
    ensures r.Ok? <==> fetched.Ok()
    ensures fetched.Rejected? ==> r == Err(fetched.reason)
    ensures fetched.Response? && !fetched.Ok() ==> r == Err("Setup failed")
    ensures r.Ok? ==> r.value == fetched.body
  {
    match fetched
    case Rejected(reason) => Err(reason)
    case Response(_, body) => if fetched.Ok() then Ok(body) else Err("Setup failed")
  }
}
