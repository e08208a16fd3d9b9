# bitharbor-web media layer, modelled in Dafny

bitharbor-web is a React front end for a BitHarbor media server. It can
also talk to a Jellyfin-style server and to an in-browser mock server.
This project models the parts of it that decide what the user sees:

- **The BitHarbor adapter.** It maps the backend's per-type media records to
  the items the pages render. It fans out over the six media types, probes
  every type for a single item, merges vector-search hits by score, and
  builds the catalog, streaming and authentication requests.
- **The legacy clients.** These are the two Jellyfin-style REST clients and
  the unified client that dispatches between backends.
- **The API service client and the authentication context.** They hold the
  session in local storage.
- **The pages.** These are the media-type page, library detail, item
  detail, setup and catalog ingest pages, plus the search bar and the video
  player.
- **The mock server.** This is the request handlers and the placeholder
  artwork.

Every network reply, every stored value and every fixture array is an input
to the model. A reply is `Fetched`: a rejected promise, or a status code
with an already decoded body. JavaScript's `||`, `??` and truthiness are
written out in the `Js` module. Numbers are exact reals; limits, offsets,
`k` and image widths are integers. Object fields that
change over time (local storage, the API client, the authentication
provider, the setup form, the ingest panel and the player) are classes whose
methods state their whole new state.

Modules, one per source file, plus shared helpers:

| module | source |
|---|---|
| `Js`, `Text`, `Lists`, `Sorting` | JavaScript runtime behaviour: truthiness, strings, `filter`/`find`, `Array.prototype.sort` |
| `ApiTypes` | src/types/api.ts |
| `Storage` | `localStorage` |
| `BitHarbor` | src/lib/api/bitharbor-adapter.ts |
| `LegacyApi` | src/lib/api/api.ts and src/lib/jellyfin/api.ts (the `Flavour` parameter selects which) |
| `Unified` | src/lib/api/unified-client.ts |
| `Client` | src/lib/api/client.ts |
| `Auth` | src/contexts/AuthContext.tsx |
| `SetupPage` | src/apps/stable/pages/Setup.tsx |
| `CatalogIngest` | src/components/catalog/CatalogIngestPanel.tsx |
| `Browsing`, `MediaTypePage` | src/apps/stable/pages/MediaTypePage.tsx (genre and sort logic shared with the library page) |
| `LibraryDetail` | src/apps/stable/pages/LibraryDetail.tsx |
| `ItemDetail` | src/apps/stable/pages/ItemDetail.tsx |
| `SearchBar` | src/components/common/SearchBar.tsx |
| `VideoPlayer` | src/components/player/VideoPlayer.tsx |
| `MockHandlers` | src/mocks/handlers.ts |
| `MockImages` | src/mocks/images.ts |

## Model

| member | source | states |
|---|---|---|
| ApiTypes.ParseMediaType | src/types/api.ts:68 | exactly the six wire names are media types |
| ApiTypes.MediaTypeNames | src/types/api.ts:68 | each media type's wire name reads back to that type and to no other |
| BitHarbor.GetTypeRoute | src/lib/api/bitharbor-adapter.ts:40-50 | movie→movies, tv→tv, music→music, podcast→podcasts, video→videos, personal→personal |
| BitHarbor.TypeRouteBijective | src/lib/api/bitharbor-adapter.ts:40-50 | distinct types reach distinct routes, and every route is reached by some type |
| BitHarbor.CastNames | src/lib/api/bitharbor-adapter.ts:96 | `cast?.map(c => c.name)` is present iff the cast is, with one name per member |
| BitHarbor.FirstDirectorSpec | src/lib/api/bitharbor-adapter.ts:97 | the director is present iff some crew member's job is 'Director', and is then the first such member's name |
| BitHarbor.TransformMediaItem | src/lib/api/bitharbor-adapter.ts:55-203 | id, type, source type and zeroed user data come from the detail, genres are always an array: the movie, show or music list when present (even empty), else `metadata.genres || []`, and the name comes from the branch the enrichment envelope selects (movie, episode, music or podcast title, else title or metadata title or 'Unknown') |
| BitHarbor.MovieOverridesOnlyTruthy | src/lib/api/bitharbor-adapter.ts:83-104 | a movie envelope's overview, year, rating, poster, backdrop and runtime override the flat metadata only when truthy, and its genre list whenever present; runtime minutes become minutes×60×10⁷ ticks, else seconds×10⁷ |
| BitHarbor.FlatFieldsOnlyWithoutEnvelope | src/lib/api/bitharbor-adapter.ts:162-200 | the flat per-type fields are copied only when there is no envelope; with one, the other branches' fields stay unset |
| BitHarbor.TvEpisodeFallsBackToShow | src/lib/api/bitharbor-adapter.ts:105-132 | an episode sets season and episode numbers and falls back to the show for series name and cast; without an episode the base name stays; the show supplies the genres |
| BitHarbor.MusicFallsBackToFlat | src/lib/api/bitharbor-adapter.ts:133-146 | a music envelope names the item by the track title; year falls back to the flat year when not truthy, genres when absent; the truthy `duration_s` becomes seconds×10⁷ ticks, else the flat `duration_seconds` does |
| BitHarbor.PodcastFallsBackToFlat | src/lib/api/bitharbor-adapter.ts:147-160 | a podcast envelope names item and episode by the title; overview falls back to the flat description/overview, ticks to the flat seconds, the poster flag to the flat poster; year and genres stay flat |
| BitHarbor.AllRecordToDetail | src/lib/api/bitharbor-adapter.ts:393-443 | an `/all` record becomes a detail keyed by its file hash, of the requested type, sourced 'catalog', with a movie envelope only for movies |
| BitHarbor.GetMediaOfType | src/lib/api/bitharbor-adapter.ts:378-448 | a non-OK reply fails with 'Failed to fetch media'; otherwise one item per record, in order, ids are file hashes, and the count is the number of records |
| BitHarbor.ListedMovieNamedByTitle | src/lib/api/bitharbor-adapter.ts:393-443 | a listed movie is named by the record's title, which is also its original title when non-empty |
| BitHarbor.FanOutSpec | src/lib/api/bitharbor-adapter.ts:363-376 | the all-types listing succeeds iff every type answers OK; the total equals the item count and the sum of record counts; the first type's items come first |
| BitHarbor.LookupOfType | src/lib/api/bitharbor-adapter.ts:457-469 | a typed lookup gives null on a non-OK reply and the transformed detail on an OK one; a rejected fetch propagates |
| BitHarbor.FirstHitSpec | src/lib/api/bitharbor-adapter.ts:471-480 | the type-less lookup returns the first type, in fan-out order, that answers OK, and returns null only when every type answered non-OK |
| BitHarbor.FirstFoundMisses | src/lib/api/bitharbor-adapter.ts:472-478 | the sequential search comes back empty exactly when every step came back empty |
| BitHarbor.FirstFoundAnswers | src/lib/api/bitharbor-adapter.ts:472-478 | a non-empty search answer is the answer of some step, and every earlier step came back empty |
| BitHarbor.GetMediaById | src/lib/api/bitharbor-adapter.ts:455-481 | the loop with early return computes exactly the typed lookup or the first hit |
| BitHarbor.HitItem | src/lib/api/bitharbor-adapter.ts:536-547 | a search hit becomes an item with its id, title and type, no overview and zeroed user data |
| BitHarbor.SearchRequestFor | src/lib/api/bitharbor-adapter.ts:518-521 | the request carries the query text unchanged; `k` is the option when it is truthy and 20 otherwise (missing or 0) |
| BitHarbor.VectorSearchOfType | src/lib/api/bitharbor-adapter.ts:517-552 | a non-OK reply fails with 'Search failed'; otherwise the items and scores are the hits, one for one, in order |
| BitHarbor.SearchFanOutFails | src/lib/api/bitharbor-adapter.ts:495-499 | the all-types search succeeds iff every type answers OK |
| BitHarbor.KeyByScore | src/lib/api/bitharbor-adapter.ts:502-504 | each combined hit is paired with its own score, in order |
| BitHarbor.Unzip | src/lib/api/bitharbor-adapter.ts:511-514 | items and scores are split out position by position |
| BitHarbor.VectorSearchAll | src/lib/api/bitharbor-adapter.ts:494-515 | the in-place sort and slice compute the merged top-k of the specification function |
| BitHarbor.SortedByScore | src/lib/api/bitharbor-adapter.ts:505 | a list sorted by the descending comparator has non-increasing scores |
| BitHarbor.MergeTopKSorted | src/lib/api/bitharbor-adapter.ts:505-514 | the merged scores are non-increasing and as many as the items |
| BitHarbor.MergeTopKFromFanOut | src/lib/api/bitharbor-adapter.ts:502-514 | the merged (item, score) pairs are a sub-multiset of the combined hits, so nothing is invented or duplicated |
| BitHarbor.MergeTopKKeepsBest | src/lib/api/bitharbor-adapter.ts:505-509 | every combined hit that was dropped scores no higher than any kept hit |
| BitHarbor.Kept | src/lib/api/bitharbor-adapter.ts:512-513 | the returned items and scores pair up index by index, as many as the shorter list |
| BitHarbor.SortedByScoreValues | src/lib/api/bitharbor-adapter.ts:505 | sorting the combined hits by descending score is a permutation with non-increasing scores |
| BitHarbor.TopIsPrefix | src/lib/api/bitharbor-adapter.ts:508-509 | taking the top k of a sorted list keeps a prefix of it |
| BitHarbor.MergeTopKPrefix | src/lib/api/bitharbor-adapter.ts:502-514 | the merged hits are a prefix of a score-ordered permutation of the combined hits |
| BitHarbor.MergeTopKLength | src/lib/api/bitharbor-adapter.ts:508-509 | the merged list has min(k, number of hits) entries |
| BitHarbor.MergeKeepsTies | src/lib/api/bitharbor-adapter.ts:505 | hits with equal scores keep their fan-out order (the sort is stable) |
| BitHarbor.CatalogSearchParams | src/lib/api/bitharbor-adapter.ts:562-567 | the query, then the limit (10 by default), then the year only when it is truthy |
| BitHarbor.SearchCatalogMovies | src/lib/api/bitharbor-adapter.ts:569-577 | a rejected request fails with its reason, a non-OK reply with 'Catalog search failed', else the body is returned |
| BitHarbor.DownloadPayload | src/lib/api/bitharbor-adapter.ts:584-587 | the match key is kept and `execute` defaults to true |
| BitHarbor.DownloadCatalogMovie | src/lib/api/bitharbor-adapter.ts:589-599 | a rejected request fails with its reason, a non-OK reply with 'Catalog download failed'; an OK reply returns its body unchanged |
| BitHarbor.GetStreamUrl | src/lib/api/bitharbor-adapter.ts:605-614 | `{base}/{route}/media/{id}/stream`, with the movie route when no type is given |
| BitHarbor.StreamUrlDefaultsToMovie | src/lib/api/bitharbor-adapter.ts:608-611 | a missing type streams exactly as a movie does |
| BitHarbor.LocalPart | src/lib/api/bitharbor-adapter.ts:234 | `email.split('@')[0]` is a prefix of the email without '@' that runs to the first '@' or to the end |
| BitHarbor.SplitHeadPrefix | src/lib/api/bitharbor-adapter.ts:234 | the first piece of a split is a prefix of the text that stops at the first separator or at the end |
| BitHarbor.Login | src/lib/api/bitharbor-adapter.ts:218-240 | a rejected request fails with its reason and a non-OK reply with 'Login failed'; otherwise the admin and participants are passed through, the user's id is the admin's, the server is 'bitharbor', the name is the display name or else the whole local part of the email (up to its first '@'), and the token is passed through |
| BitHarbor.Setup | src/lib/api/bitharbor-adapter.ts:245-269 | a rejected request fails with its reason, a non-OK reply with 'Setup failed', else the body is returned |
| LegacyApi.GetUserId | src/lib/api/api.ts:9-13 | a missing or empty stored user throws 'User not logged in'; otherwise the id is the stored record's `Id` |
| LegacyApi.ImageUrl | src/lib/api/api.ts:15-18 | `{server}/Items/{id}/Images/{type}`, with `?width=W&quality=90` appended exactly when the width is truthy |
| LegacyApi.MapItem | src/lib/api/api.ts:248-262 | missing `Id`, `Name` and `Type` become '', and the other mapped fields are copied as they are |
| LegacyApi.MapItems | src/lib/api/api.ts:248-262 | one item per raw item, in order |
| LegacyApi.MapItemsAppend | src/lib/api/api.ts:248-262 | mapping distributes over concatenation |
| LegacyApi.MissingFieldsBecomeEmpty | src/lib/api/api.ts:250-252 | a raw item without id, name and type maps to empty strings |
| LegacyApi.GetLibraries | src/lib/api/api.ts:20-39 | no request and [] when not logged in; otherwise the views request with the token header, and the reply's `Items` or [] (the status is not checked); [] on a rejected fetch |
| LegacyApi.GetContinueWatching | src/lib/api/api.ts:41-56 | the `Items/Resume?Limit=` request, the mapped `Items` or [], and [] when not logged in or on failure |
| LegacyApi.GetRecentlyAdded | src/lib/api/api.ts:58-71 | the `Items/Latest?Limit=` request and the mapped reply array, [] when not logged in or on failure |
| LegacyApi.KeysAppend | src/lib/api/api.ts:107-122 | the names of appended parameters follow the earlier ones |
| LegacyApi.GetFavorites | src/lib/api/api.ts:73-93 | the favourites query (IsFavorite, recursive, limit, by name ascending) and the mapped `Items` or [] |
| LegacyApi.LibraryParamsKeys | src/lib/api/api.ts:107-122 | the parameter names are the six fixed ones followed by SortBy, SortOrder, Genres, Limit, StartIndex, each only when present |
| LegacyApi.LibraryParamsSpec | src/lib/api/api.ts:116-122 | each optional parameter is sent iff its option is truthy (genres: a non-empty array) |
| LegacyApi.LibraryParamsFixed | src/lib/api/api.ts:107-119 | the six fixed parameters come first and non-empty genres are sent comma-joined |
| LegacyApi.WhenKeys | src/lib/api/api.ts:116-122 | a conditional append adds its name iff the condition holds |
| LegacyApi.FixedKeysOf | src/lib/api/api.ts:107-114 | the fixed parameter names, in order |
| LegacyApi.LibraryKeys | src/lib/api/api.ts:107-122 | the names of the whole query are the names of its parts, in order |
| LegacyApi.GetLibraryItems | src/lib/api/api.ts:95-138 | the library query request, the mapped `Items` or [], the total or 0, and an empty page when not logged in or on failure |
| LegacyApi.GetItemById | src/lib/api/api.ts:140-158 | an item exactly when logged in and the reply is OK, mapped like a list item; a request exactly when logged in |
| LegacyApi.ToggleFavorite | src/lib/api/api.ts:160-176 | DELETE to unfavourite and POST to favourite, on the user's FavoriteItems URL; true iff a request was sent and the reply is OK |
| LegacyApi.ToggleTwiceOpposes | src/lib/api/api.ts:164 | toggling from the two favourite states uses opposite verbs |
| LegacyApi.PositionTicks | src/lib/api/api.ts:184 | `Math.floor(seconds × 10⁷)` is the whole number of ticks at or below the position |
| LegacyApi.PositionTicksExact | src/lib/api/api.ts:184 | a whole number of ticks read as seconds gives back the same ticks |
| LegacyApi.ReportPlaybackProgress | src/lib/api/api.ts:178-205 | a JSON POST to Sessions/Playing/Progress with the item, floored ticks and pause flag, needing no user id; resolves with the reply's `ok` |
| LegacyApi.ReportPlaybackStopped | src/lib/api/api.ts:207-229 | a JSON POST to Sessions/Playing/Stopped with the item and floored ticks; resolves with the reply's `ok` |
| LegacyApi.MarkAsPlayed | src/lib/api/api.ts:231-246 | a POST to the user's PlayedItems URL exactly when logged in; true iff sent and OK |
| LegacyApi.NotLoggedInDegrades | src/lib/api/api.ts:9-13 | without a stored user every user-scoped call sends nothing and resolves with its empty value |
| LegacyApi.FlavoursAgree | src/lib/jellyfin/api.ts:5-170 | the Jellyfin client differs only in its user key and its `X-Emby-Token` header: given the same stored user, the library, item and favourite calls resolve alike |
| Unified.BackendTagOf | src/lib/api/unified-client.ts:20 | the backend tag is the environment's when truthy, else 'mock', and is never empty |
| Unified.BackendUrlOf | src/lib/api/unified-client.ts:22 | the backend URL is the environment's when truthy, else the local default |
| Unified.UnitScores | src/lib/api/unified-client.ts:66-67 | the fallback keeps the items and gives each the score 1.0 |
| Unified.VectorSearch | src/lib/api/unified-client.ts:58-69 | on BitHarbor it is the adapter's type-less vector search; otherwise the legacy items, each scored 1.0 |
| Unified.PlaceholderSize | src/lib/api/unified-client.ts:211 | the width is `width || 300` and the height is ⌊1.5 × width⌋ |
| Unified.DefaultTagIsMock | src/lib/api/unified-client.ts:20 | with no tag the client is wholly on the legacy service; with 'bitharbor' wholly on the adapter |
| Unified.UnknownTagSplitsDispatch | src/lib/api/unified-client.ts:43-200 | an unknown tag searches with the legacy service but takes the BitHarbor branch of every method that tests for 'mock' (one 'All Media' library, no favourites, writes answer false) |
| Unified.LibraryItemsAreAllMedia | src/lib/api/unified-client.ts:90-104 | on BitHarbor a library's items are all media of every type, whatever the library and paging, failing when any type fails; the total is the item count |
| Unified.SearchAgreesWithVectorSearch | src/lib/api/unified-client.ts:43-69 | `search(q, n)` returns exactly the items of `vectorSearch(q, {top_k: n})` |
| Unified.NonMockUrls | src/lib/api/unified-client.ts:205-227 | off the mock backend the image is the 300×450 placeholder and the stream is the adapter's movie stream URL |
| Unified.DefaultPlaceholder | src/lib/api/unified-client.ts:211 | without a width the placeholder URL is the 300×450 one |
| Storage.LocalStorage.constructor | src/lib/api/client.ts:15 | the store starts with the given entries |
| Storage.LocalStorage.SetItem | src/lib/api/client.ts:38 | `setItem` overwrites one key and leaves the others |
| Storage.LocalStorage.RemoveItem | src/contexts/AuthContext.tsx:161-165 | `removeItem` drops one key and leaves the others |
| Client.Restored | src/lib/api/client.ts:15-24 | a saved value is taken only when it is truthy, else the field keeps its initial '' |
| Client.ServerOrFallback | src/lib/api/client.ts:54-56 | `getServerUrl` is the field when non-empty, else 'http://localhost:8096' |
| Client.ApiServiceClient.constructor | src/lib/api/client.ts:9-25 | server URL and token are restored from storage only when those keys hold truthy values |
| Client.ApiServiceClient.GetDeviceId | src/lib/api/client.ts:27-34 | a stored id is returned unchanged with storage untouched; otherwise the fresh id is stored and returned, so later calls return the same id |
| Client.ApiServiceClient.Connect | src/lib/api/client.ts:36-47 | the URL is written to the field and to storage before the probe, so a failed connect still changes it; a non-OK probe fails with 'Cannot connect to server' |
| Client.ApiServiceClient.SetAccessToken | src/lib/api/client.ts:49-52 | the token goes to the field and to 'access_token', and `getAccessToken` then returns it |
| Auth.RestoreBranchOf | src/contexts/AuthContext.tsx:43-86 | no token: nothing restored; token and admin entry: admin session; token, user and server without admin: legacy session |
| Auth.DisplayName | src/contexts/AuthContext.tsx:41 | the admin's display name when non-empty, else the user's name when non-empty, else null |
| Auth.DisplayNameNeedsSession | src/contexts/AuthContext.tsx:41 | a display name implies an authenticated session; a session without one has only empty names |
| Auth.LoggedOut | src/contexts/AuthContext.tsx:160-165 | exactly the five session keys are removed and every other entry is kept |
| Auth.LogoutEndsSession | src/contexts/AuthContext.tsx:160-165 | after logout the next mount restores nothing |
| Auth.EmailSessionRestores | src/contexts/AuthContext.tsx:59-69 | an e-mail login is restored on the next mount as an admin session with the same admin, user and participants ([] when none came) |
| Auth.LegacySessionRestores | src/contexts/AuthContext.tsx:72-83 | a legacy login is restored on the next mount through the legacy branch with the same user and server |
| Auth.AuthProvider.constructor | src/contexts/AuthContext.tsx:35-38 | no user, no admin, no participants, loading |
| Auth.AuthProvider.Restore | src/contexts/AuthContext.tsx:43-86 | loading ends; without a token nothing else changes; with one the token is pushed to the API client; an admin entry restores admin, participants and user when present without connecting; the legacy branch sets the user and server, and a failed connect logs out |
| Auth.AuthProvider.Login | src/contexts/AuthContext.tsx:89-125 | connect first; a non-OK authentication fails with 'Invalid credentials'; token, user and server are stored only after a 2xx reply |
| Auth.AuthProvider.LoginWithEmail | src/contexts/AuthContext.tsx:128-158 | on success token, admin, participants (or []) and user are stored and set; on failure nothing changes |
| Auth.AuthProvider.Logout | src/contexts/AuthContext.tsx:160-169 | the five keys go, user, admin and participants are cleared, and the session is no longer authenticated |
| Auth.AuthProvider.RefreshAdminInfo | src/contexts/AuthContext.tsx:175-185 | a returned admin replaces the admin and its stored entry; otherwise nothing changes |
| SetupPage.ValidateSetup | src/apps/stable/pages/Setup.tsx:32-45 | the first failing guard wins: mismatched passwords, then fewer than 8 characters, then a blank display name; no message exactly when all three pass |
| SetupPage.ValidationOrder | src/apps/stable/pages/Setup.tsx:32-45 | a whitespace-only display name is refused once the passwords pass; mismatched passwords are reported whatever the display name |
| SetupPage.SetupForm.constructor | src/apps/stable/pages/Setup.tsx:21-23 | no error, not loading, not succeeded |
| SetupPage.SetupForm.HandleSubmit | src/apps/stable/pages/Setup.tsx:27-76 | a failed guard sets its message and sends nothing; a valid form sends the untrimmed name with no participants; success stores token and admin, hands the token to the client and stays loading; failure shows the message or the fallback text and stops loading, storage untouched |
| CatalogIngest.PanelTitle | src/components/catalog/CatalogIngestPanel.tsx:58 | a given title is kept even when empty; otherwise 'Add {label} from Catalog' |
| CatalogIngest.YearGuardNeverFires | src/components/catalog/CatalogIngestPanel.tsx:68-71 | `parsedYear && Number.isNaN(parsedYear)` is never true, because NaN is falsy |
| CatalogIngest.SearchRequest | src/components/catalog/CatalogIngestPanel.tsx:64-75 | a blank query fails with 'Enter a title to search'; otherwise the trimmed query and the limit are sent, with no year exactly when the year field is empty and `Number(year)` otherwise |
| CatalogIngest.NonNumericYearIsSent | src/components/catalog/CatalogIngestPanel.tsx:68-75 | a year that is not a number is sent as NaN rather than refused |
| CatalogIngest.ErrorAlert | src/components/catalog/CatalogIngestPanel.tsx:87 | an error alert carrying the message, or the fallback when the message is empty |
| CatalogIngest.IngestPanel.constructor | src/components/catalog/CatalogIngestPanel.tsx:54-56 | no matches, no alert, no download in flight |
| CatalogIngest.IngestPanel.HandleSearch | src/components/catalog/CatalogIngestPanel.tsx:63-89 | a refused query or failed search raises an error alert and keeps the matches; success replaces them (`[]` when missing) and raises 'No catalog matches found.' exactly when empty |
| CatalogIngest.IngestPanel.HandleDownloadClick | src/components/catalog/CatalogIngestPanel.tsx:110-114 | the start alert names the title (or 'catalog title'), the in-flight key becomes the match's, only that match's button is disabled, and the request asks to execute |
| CatalogIngest.IngestPanel.DownloadSettled | src/components/catalog/CatalogIngestPanel.tsx:99-107 | success or failure is reported and the in-flight key is cleared either way, so every button is enabled again |
| CatalogIngest.IngestPanel.CloseAlert | src/components/catalog/CatalogIngestPanel.tsx:121 | the alert is cleared and nothing else changes |
| Browsing.AllGenres | src/apps/stable/pages/MediaTypePage.tsx:101 | a genre is listed exactly when some item carries it |
| Browsing.Distinct | src/apps/stable/pages/MediaTypePage.tsx:98-99 | the same members, each at most once |
| Browsing.SortTextsSpec | src/apps/stable/pages/MediaTypePage.tsx:104 | `sort()` keeps each text as often as before and orders them ascending by code units |
| Browsing.AvailableGenresSpec | src/apps/stable/pages/MediaTypePage.tsx:96-105 | the genres on offer are strictly ascending and are exactly the non-empty genres some item carries |
| Browsing.ToggleGenre | src/apps/stable/pages/MediaTypePage.tsx:115-121 | the toggled genre is selected afterwards exactly when it was not before, other genres keep their state, an added genre goes last and a removal keeps the order of the rest |
| Browsing.ToggleTwiceRestores | src/apps/stable/pages/MediaTypePage.tsx:115-121 | toggling an unselected genre twice gives back the same selection, order included |
| MediaTypePage.LastById | src/apps/stable/pages/MediaTypePage.tsx:60-62 | the `Map` lookup finds an item exactly when one has the id, and it is the last such item |
| MediaTypePage.Rehydrate | src/apps/stable/pages/MediaTypePage.tsx:58-63 | at most one item per hit, each a fetched item with some hit's id |
| MediaTypePage.KnownHits | src/apps/stable/pages/MediaTypePage.tsx:61-63 | the hits whose id is among the fetched items, never more than the hits |
| MediaTypePage.RehydrateKnownHits | src/apps/stable/pages/MediaTypePage.tsx:61-63 | one item per known hit, in hit order, each the fetched item that the id map holds for that hit's id |
| MediaTypePage.RehydrateAllKnown | src/apps/stable/pages/MediaTypePage.tsx:61-63 | when every hit was fetched, one item per hit in hit order, with the hit's id |
| MediaTypePage.FilteredAndSortedItems | src/apps/stable/pages/MediaTypePage.tsx:56-93 | the copied, filtered and in-place-sorted list equals the value-level definition |
| MediaTypePage.FilteredAndSortedSpec | src/apps/stable/pages/MediaTypePage.tsx:56-93 | the page lists a permutation of the base items that pass the genre filter, ordered by the chosen key in the chosen direction |
| MediaTypePage.LoadItems | src/apps/stable/pages/MediaTypePage.tsx:38-47 | the page's items are the adapter's; an error that mentions '404' becomes an empty list, any other error stays |
| MediaTypePage.NotFoundStaysAnError | src/apps/stable/pages/MediaTypePage.tsx:43-45 | an HTTP 404 from the type endpoint reaches the page as 'Failed to fetch media' and is shown as an error |
| LibraryDetail.CurrentLibrary | src/apps/stable/pages/LibraryDetail.tsx:35 | a library is found exactly when one has the route's id, and it is listed |
| LibraryDetail.CurrentLibraryIsFirst | src/apps/stable/pages/LibraryDetail.tsx:35 | the library found is the first listed with that id |
| LibraryDetail.GenresOption | src/apps/stable/pages/LibraryDetail.tsx:44 | the selection is passed exactly when it is non-empty |
| LibraryDetail.LibraryQueryParams | src/apps/stable/pages/LibraryDetail.tsx:38-47 | the items query always sorts, never pages, and filters by the comma-joined selection exactly when a genre is selected |
| LibraryDetail.LibraryGenres | src/apps/stable/pages/LibraryDetail.tsx:50-56 | the genres on offer are strictly ascending and exactly the non-empty genres the loaded items carry |
| SearchBar.HitToItem | src/components/common/SearchBar.tsx:33-44 | the item takes the hit's id, title, type and overview, unplayed and not a favourite |
| SearchBar.HitsToItems | src/components/common/SearchBar.tsx:33 | one item per hit, in order; none when `results` is missing |
| SearchBar.RunSearch | src/components/common/SearchBar.tsx:16-47 | a blank input fetches nothing and yields no items; otherwise the local-search URL of the untrimmed input is fetched, a rejection fails with its reason, a non-2xx reply fails with 'Search failed' and a 2xx reply yields its hits as items (none when `results` is missing) |
| SearchBar.HandleInputChange | src/components/common/SearchBar.tsx:55-60 | the input is kept, and an empty list is reported at once exactly when it is blank |
| SearchBar.WhitespaceNeverSearches | src/components/common/SearchBar.tsx:19 | a whitespace-only input reports no hits and fetches nothing |
| SearchBar.ItemsFollowHits | src/components/common/SearchBar.tsx:33-44 | each shown item carries its hit's id, title and type, in hit order |
| ItemDetail.DisplayedItem | src/apps/stable/pages/ItemDetail.tsx:37-38 | the item shown has the route's id, and there is none exactly when neither list holds that id |
| ItemDetail.ResumeListFirst | src/apps/stable/pages/ItemDetail.tsx:37-38 | an item in the continue-watching list wins over one in the recently-added list |
| ItemDetail.PosterUrl | src/apps/stable/pages/ItemDetail.tsx:52-54 | a poster URL exactly when the item has a primary image tag: `/Items/{id}/Images/Primary?width=300&quality=90` |
| ItemDetail.BackdropUrl | src/apps/stable/pages/ItemDetail.tsx:48-50 | a backdrop URL exactly when the item has a primary image tag (not a backdrop tag): `/Items/{id}/Images/Backdrop?width=1920&quality=90` |
| ItemDetail.PosterLink | src/apps/stable/pages/ItemDetail.tsx:52-54 | the legacy image URL for a 300-wide primary image is `/Items/{id}/Images/Primary?width=300&quality=90` |
| ItemDetail.BackdropLink | src/apps/stable/pages/ItemDetail.tsx:48-50 | the legacy image URL for a 1920-wide backdrop is `/Items/{id}/Images/Backdrop?width=1920&quality=90` |
| ItemDetail.RuntimeMinutes | src/apps/stable/pages/ItemDetail.tsx:56-58 | minutes exactly when the ticks are truthy, the floor of ticks over 600000000 |
| ItemDetail.RuntimeRoundTrip | src/apps/stable/pages/ItemDetail.tsx:56-58 | the adapter's minutes-to-ticks conversion read back gives the minutes, except that 0 shows no runtime |
| ItemDetail.RuntimeChipNeedsAMinute | src/apps/stable/pages/ItemDetail.tsx:144 | the runtime chip shows exactly when the running time is at least one minute |
| ItemDetail.PlayLabel | src/apps/stable/pages/ItemDetail.tsx:123 | 'Resume' exactly when the played percentage is truthy, else 'Play' |
| ItemDetail.LegacyEpisodeInfo | src/apps/stable/pages/ItemDetail.tsx:175 | an item loaded through the legacy client shows the season/episode block exactly when the server's Type is 'Episode'; a missing or empty Type never shows it |
| VideoPlayer.StreamRouteMatchesAdapter | src/components/player/VideoPlayer.tsx:55-64 | the player's route table agrees with the adapter's for every media type; any other type streams from 'movies' |
| VideoPlayer.StreamUrl | src/components/player/VideoPlayer.tsx:55-68 | the URL is exactly `{base}/{route}/stream?file_hash={id}`, with the configured base or the default one and the mapped route or 'movies' |
| VideoPlayer.StreamUrlUsesAdapterRoute | src/components/player/VideoPlayer.tsx:55-68 | the player's route map agrees with the adapter's type routes; an unknown type streams from the movie route |
| VideoPlayer.ClockFieldsSpec | src/components/player/VideoPlayer.tsx:180-182 | for a non-negative time, minutes and seconds are below 60 and h·3600 + m·60 + s is the whole seconds |
| VideoPlayer.FormatTimeRoundTrip | src/components/player/VideoPlayer.tsx:179-188 | the clock text has three fields exactly from one hour on, every field is digits, and reading it back gives the whole seconds |
| VideoPlayer.ReportsEveryTenSeconds | src/components/player/VideoPlayer.tsx:92-95 | progress is reported exactly within the first second of each ten-second stretch, so the pattern repeats every ten seconds |
| VideoPlayer.Player.constructor | src/components/player/VideoPlayer.tsx:38-46 | paused at the start position (0 when none), volume 1, not muted, nothing reported |
| VideoPlayer.Player.PlayPause | src/components/player/VideoPlayer.tsx:135-137 | playing flips and nothing else changes |
| VideoPlayer.Player.TimeUpdate | src/components/player/VideoPlayer.tsx:88-96 | the position follows the element and is reported exactly when its whole seconds are a multiple of ten |
| VideoPlayer.Player.Seek | src/components/player/VideoPlayer.tsx:139-146 | the position jumps and is always reported |
| VideoPlayer.Player.VolumeChange | src/components/player/VideoPlayer.tsx:148-155 | the volume is the percentage over 100, muted exactly when it is zero |
| VideoPlayer.Player.MuteToggle | src/components/player/VideoPlayer.tsx:157-163 | muting flips and the volume is kept |
| VideoPlayer.Player.Ended | src/components/player/VideoPlayer.tsx:98-101 | playback stops and the end callback is made once more |
| VideoPlayer.ToggleTwiceRestores | src/components/player/VideoPlayer.tsx:135-163 | play/pause twice and mute twice restore the playing, muting, volume and position |
| MockHandlers.ValidateBearerTokenIff | src/mocks/handlers.ts:25-44 | a request is authorised exactly when its header is 'Bearer ' followed by the fixture token |
| MockHandlers.ItemsOnlyForMediaTypes | src/mocks/handlers.ts:47-64 | an unknown type serves nothing; 'tv' serves shows then episodes, 'music' albums then tracks |
| MockHandlers.TransformToMediaDetail | src/mocks/handlers.ts:67-112 | the detail keeps id and name, derives the vector and file hashes from the id, defaults the source to 'catalog' and the type to the media type |
| MockHandlers.DetailRoundTrip | src/mocks/handlers.ts:67-112 | a fixture item served as a detail and read back by the adapter keeps its id, name (or 'Unknown'), description, ratings, year, genres, running time and per-type fields |
| MockHandlers.Search | src/mocks/handlers.ts:126-154 | 401 exactly without a valid token, never 404, and every hit carries the score 0.95, the route's type and no preview |
| MockHandlers.SearchSound | src/mocks/handlers.ts:134-142 | every hit names an item of the type whose name or overview contains the lower-cased query |
| MockHandlers.SearchTruncates | src/mocks/handlers.ts:137-142 | the hits are the first `k || 20` matches, in fixture order |
| MockHandlers.ListMedia | src/mocks/handlers.ts:157-178 | 401 exactly without a valid token; `total` is the size of the type's list and the page is no larger |
| MockHandlers.ListWindow | src/mocks/handlers.ts:163-169 | the page is the `limit`-long window of the type's list starting at `offset`, clipped at the end |
| MockHandlers.ListPagesTile | src/mocks/handlers.ts:163-169 | a page of a items followed by the next page of b items is the page of a + b items |
| MockHandlers.ListPage | src/mocks/handlers.ts:169-172 | a listing with a valid token shows the details of the window `[offset, offset + limit)` of the type's list |
| MockHandlers.Details | src/mocks/handlers.ts:172 | the page maps to one detail record per item |
| MockHandlers.DetailsAppend | src/mocks/handlers.ts:172 | mapping `transformToMediaDetail` over a concatenation maps each part, in order |
| MockHandlers.GetDetail | src/mocks/handlers.ts:181-200 | 401 without a valid token; 404 exactly when no item of the type has the id; otherwise that item's detail |
| MockHandlers.GetDetailIsFirst | src/mocks/handlers.ts:189-195 | a found detail is that of the first item of the type with the id |
| MockHandlers.DetailThroughAdapter | src/mocks/handlers.ts:181-200 | the adapter's lookup of a served detail gives an item with the requested id |
| MockHandlers.StreamContentType | src/mocks/handlers.ts:203-217 | 401 without a valid token; audio/mpeg exactly for music and podcasts, video/mp4 otherwise |
| MockHandlers.AuthenticateByName | src/mocks/handlers.ts:263-285 | 200 with the fixture user and token exactly when the user name is truthy and a password is present, else 401 |
| MockHandlers.AuthenticatedTokenValidates | src/mocks/handlers.ts:263-285 | the token a login hands out passes every guarded handler |
| MockHandlers.LegacyItems | src/mocks/handlers.ts:321-372 | 401 exactly without a valid token, never 404, and the record count is the number of items returned |
| MockHandlers.LegacyPrecedence | src/mocks/handlers.ts:331-372 | a search term wins over the favourites filter, which wins over the parent library; without either the unknown parent serves nothing |
| MockHandlers.LegacyLibraryMatchesType | src/mocks/handlers.ts:352-366 | each library id serves the same items as the typed endpoint of its media type |
| MockHandlers.LegacyItemById | src/mocks/handlers.ts:375-401 | 401 without a valid token; 404 exactly when no fixture has the id; otherwise a fixture with that id |
| MockHandlers.LegacyViews | src/mocks/handlers.ts:288-297 | 401 exactly without a valid token, never 404; otherwise every library fixture with its count |
| MockHandlers.LegacyResume | src/mocks/handlers.ts:300-309 | 401 exactly without a valid token, never 404; otherwise the continue-watching fixtures with their count |
| MockHandlers.LegacyLatest | src/mocks/handlers.ts:312-318 | 401 exactly without a valid token, never 404; otherwise the recently-added fixtures as a bare array |
| MockHandlers.SignedInHomeLists | src/mocks/handlers.ts:263-318 | with the token a login hands out, the library, continue-watching and recently-added listings all answer 200 with their fixtures |
| MockHandlers.ResumeItemsLookUp | src/mocks/handlers.ts:300-397 | every item the resume listing serves is answered by the item endpoint with the first continue-watching entry carrying its id |
| MockHandlers.LegacyItemByIdIsFirst | src/mocks/handlers.ts:381-397 | a found item is the first fixture, in concatenation order, with the id |
| MockHandlers.LegacyPrefersResumeList | src/mocks/handlers.ts:381-397 | an id present in the continue-watching list is answered with that list's first match, whatever later lists hold |
| MockHandlers.LegacyLookupCoversTyped | src/mocks/handlers.ts:375-401 | every item the typed detail endpoint serves is also found by the legacy item lookup |
| MockHandlers.ItemImage | src/mocks/handlers.ts:419-434 | a backdrop exactly for 'Backdrop', otherwise a poster, named after the item found (or 'Unknown') with its type (or 'Media') |
| MockHandlers.UnknownItemImage | src/mocks/handlers.ts:419-434 | an unknown id gets the default-coloured poster titled 'Unknown', labelled 'Media', with the 'TV' badge |
| MockImages.Badge | src/mocks/images.ts:35 | '4K' exactly for 'Movie', 'EP' exactly for 'Episode', else 'TV' |
| MockImages.GeneratePoster | src/mocks/images.ts:2-38 | 300×450, gradient id from the item id, the item's colours or the default ones, its type and badge, and a title made of the first two words (a prefix of the title, the whole title when it has at most two words) |
| MockImages.GenerateBackdrop | src/mocks/images.ts:40-66 | 1920×1080, gradient id from the item id, the item's colour or '#1a1a1a', the full title |
| MockImages.GradientIdsDistinct | src/mocks/images.ts:19-54 | gradient ids differ between items, and a poster's never equals a backdrop's |
| MockImages.BackdropUsesPosterAccent | src/mocks/images.ts:3-50 | both colour tables list the same items; each backdrop colour is that poster's accent, except movie-2's, which is its background |
| MockImages.FirstTwoWordsOfTitle | src/mocks/images.ts:28 | the poster text is a prefix of the title, and the whole title when it has at most two words |
| Js.OrTextVersusCoalesce | src/components/catalog/CatalogIngestPanel.tsx:58 | `a \|\| b` keeps a truthy `a`; `a ?? b` agrees with it except on a present empty string |
| Text.Trim | src/components/common/SearchBar.tsx:19 | `trim()` gives a slice of the text with no whitespace at either end and only whitespace cut off |
| Text.BlankIffAllWhitespace | src/components/common/SearchBar.tsx:57 | a text trims to nothing exactly when every code unit is whitespace |
| Text.ContainsIffOccurs | src/apps/stable/pages/MediaTypePage.tsx:43 | `includes` holds exactly when the part occurs at some offset |
| Text.ToLower | src/mocks/handlers.ts:135 | `toLowerCase` keeps the length and lowers each code unit |
| Text.Split | src/mocks/images.ts:28 | `split` gives at least one piece and no piece holds the separator |
| Text.JoinSplit | src/mocks/images.ts:28 | joining the pieces of a split gives the text back |
| Text.SplitJoin | src/components/player/VideoPlayer.tsx:185 | splitting a join of separator-free pieces gives the pieces back |
| Text.NatToString | src/components/player/VideoPlayer.tsx:185 | `String(n)` is a non-empty digit string without a leading zero |
| Text.NatToStringRoundTrip | src/components/player/VideoPlayer.tsx:185 | reading the digits of `String(n)` back gives n |
| Text.PadStart | src/components/player/VideoPlayer.tsx:185 | `padStart` reaches the width, ends with the text and fills the front with the pad |
| Text.ZeroPaddedValue | src/components/player/VideoPlayer.tsx:185 | zero-padding a digit string keeps it digits with the same value |
| Text.SliceFromStart | src/mocks/handlers.ts:142 | `slice(0, k)` with positive k keeps the first min(k, length) elements |
| Text.SlicesTile | src/mocks/handlers.ts:169 | two adjacent slices with non-negative bounds make up the slice spanning both |
| Sorting.TextBelowTotal | src/apps/stable/pages/MediaTypePage.tsx:77 | any two different names are ordered one way or the other |
| Sorting.StableSortSpec | src/apps/stable/pages/MediaTypePage.tsx:73-91 | the sort is ordered, a permutation, and keeps the order of equal keys in both directions |
| Sorting.SortedValues | src/apps/stable/pages/MediaTypePage.tsx:73-91 | sorting values keyed by a function of themselves gives them, each as often, ordered by that function |
| Sorting.SortInPlace | src/apps/stable/pages/MediaTypePage.tsx:73 | the in-place insertion sort leaves the array equal to the stable sort of its old contents |
| Lists.Filter | src/apps/stable/pages/MediaTypePage.tsx:69-71 | an element is kept exactly when it is in the list and passes |
| Lists.FilterAppend | src/apps/stable/pages/MediaTypePage.tsx:118 | filtering a concatenation filters each part in order |
| Lists.Find | src/apps/stable/pages/ItemDetail.tsx:38 | `find` returns a passing element of the list exactly when one exists |
| Lists.FindFirst | src/apps/stable/pages/LibraryDetail.tsx:35 | the element returned sits at the first passing index |
| Lists.FindAppend | src/apps/stable/pages/ItemDetail.tsx:37-38 | searching a concatenation reaches the second part only when the first has no hit |

## Left out

- Network I/O and JSON decoding: `fetch`, `response.json()`, the mock server's request plumbing and `JSON.parse`/`JSON.stringify` are not modelled; every reply is a `Fetched` input with an already decoded body, and stored JSON goes through a `Json` codec given as a parameter.
- Concurrency: `Promise.all` is an ordered all-or-nothing map whose error is the first failing type in fan-out order; which request actually fails first, interleaving, React Query caching, retries and mutation scheduling are not modelled.
- Floating point: numbers are exact reals, so NaN, rounding, `toFixed` and score percentages are not modelled; the catalog panel's `Number(year)` is an input that may be NaN.
- Integer-typed counts: a fractional or NaN `limit`, `k` or image `width` is not modelled. Examples are the catalog panel's limit field, read with `Number(e.target.value)` and sent as typed, a `k` or `width` passed by a caller, and a `limit`/`offset` query string that the mock server's `parseInt` reads as NaN. CatalogIngest.SearchRequest, CatalogIngest.IngestPanel.HandleSearch, Unified.PlaceholderSize, MockHandlers.Search, MockHandlers.ListMedia and BitHarbor.TopK take these as `int`.
- VideoPlayer.Player.VolumeChange: the volume is the exact quotient of the slider value by 100, not its floating-point rounding.
- Dates and clocks: `new Date(…).getFullYear()` is an input carried next to the date text, and the mock ingest handler's `Date.now()` ids are not modelled.
- Library behaviour: `localeCompare` and the default `sort()` order are modelled as code-unit order; `toLowerCase` lowers ASCII letters only; `encodeURIComponent` and `URLSearchParams` escaping are inputs or omitted (parameters are kept as key/value lists); `parseInt` of the list handler's query parameters is an input; `crypto.randomUUID` is an input.
- Strings are sequences of UTF-16 code units; no Unicode case mapping or normalisation.
- The player's timers, auto-hiding controls, fullscreen handling and the `<video>` element itself are not modelled; its handlers are modelled on the state they set and the callbacks they make.
- ItemDetail.ShowsRuntimeChip: states whether the chip is shown, not what `{runtime && …}` renders for a runtime of 0 (React prints the digit 0).
- Adapter operations outside the listed core (`getMe`, participant management, `ingestMedia`, `healthCheck`) and the exact header lists of `getHeaders` are not modelled.
- Calls into code that does not exist in the repository are inputs: `apiService.bitTempleAdapter` in the authentication context, the panel's `searchCatalog`/`downloadCatalog`, the unified client's `mockApi.search`, and the search bar's `bittemple-adapter` (its route, base URL and query encoding are parameters of `SearchBar.RunSearch`).
- The lookup tables indexed with arbitrary strings (`typeRouteMap`, the colour tables) are modelled as maps over their own keys; keys such as `constructor` that JavaScript would find on the object prototype are not modelled.
- The fixture arrays the mock server serves are an input (`MockHandlers.Fixtures`); the trivial mock endpoints are not modelled: the root (`GET /`), public system info (`GET /System/Info/Public`), the favourite acknowledgements (`POST` and `DELETE /Users/{userId}/FavoriteItems/{itemId}`), the playback acknowledgements (`POST /Sessions/Playing/Progress`, `/Sessions/Playing/Stopped`, `/Users/{userId}/PlayedItems/{itemId}`), the stream endpoint's body and ingest start.
- MockHandlers.LegacyItemById: models the item endpoint on its own. The mock server routes a request to the first handler whose path matches, so an item id of `Resume` or `Latest` reaches `LegacyResume` or `LegacyLatest` instead; that routing is not modelled.
- MockHandlers.TransformToMediaDetail: an item with neither `Type` nor `MediaType` gets the type '' rather than `undefined`.
- MockImages.GeneratePoster and MockImages.GenerateBackdrop: the SVG markup is represented by the values it interpolates, not as text.
- src/apps/stable/pages/Player.tsx is not part of this model (glue around a floating-point 90% threshold); the player's own stream URL (`/{route}/stream?file_hash=…`) is modelled separately from the adapter's `getStreamUrl`, which it does not call.
- Rendering, routing, theming and the remaining pages (home, libraries, favourites, search, settings, ingest and the one-line per-type pages) are not part of this model, nor is the `@jellyfin/sdk` wrapper.
