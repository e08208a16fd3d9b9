/** The library page (src/apps/stable/pages/LibraryDetail.tsx): which
    library the route names, the query it sends for the library's items and
    the genres it offers. */
module LibraryDetail {
  import opened Js
  import opened Text
  import opened ApiTypes
  import opened Lists
  import opened Sorting
  import opened Browsing
  import LegacyApi

  /** `libraries?.find(lib => lib.Id === id)` */
  function CurrentLibrary(libraries: Option<seq<Library>>, id: Option<string>): (r: Option<Library>)
    ensures r.Some? ==> libraries.Some? && id == Some(r.value.id) && r.value in libraries.value
    ensures r.None? <==> libraries.None? || forall lib :: lib in libraries.value ==> id != Some(lib.id)
  {
    if libraries.None? then None else Find(libraries.value, (lib: Library) => id == Some(lib.id))
  }

  /** The library shown is the first one listed with the route's id. */
  lemma CurrentLibraryIsFirst(libraries: seq<Library>, id: string)
    requires CurrentLibrary(Some(libraries), Some(id)).Some?
    ensures exists i :: 0 <= i < |libraries| && CurrentLibrary(Some(libraries), Some(id)) == Some(libraries[i])
                        && forall j :: 0 <= j < i ==> libraries[j].id != id
  {
    var i := FindFirst(libraries, (lib: Library) => Some(id) == Some(lib.id));
  }

  /** `selectedGenres.length > 0 ? selectedGenres : undefined` */
  function GenresOption(selected: seq<string>): (r: Option<seq<string>>)
    ensures r.Some? <==> |selected| > 0
    ensures r.Some? ==> r.value == selected
  {
    if |selected| > 0 then Some(selected) else None
  }

  /** The options the page passes to `getLibraryItems`. */
  function LibraryQuery(field: SortField, order: SortOrder, selected: seq<string>): LegacyApi.LibraryOptions {
    LegacyApi.LibraryOptions(Some(FieldName(field)), Some(OrderName(order)), GenresOption(selected), None, None)
  }

  /** The items query runs only once the route has an id. */
  predicate QueryEnabled(id: Option<string>) {
    TruthyText(id)
  }

  /** The page's library query always sorts, filters by genre exactly when a
      genre is selected (sending the selection comma-joined), and never
      pages. */
  lemma LibraryQueryParams(libraryId: string, field: SortField, order: SortOrder, selected: seq<string>)
    ensures var params := LegacyApi.LibraryParams(libraryId, LibraryQuery(field, order, selected));
            var keys := LegacyApi.Keys(params);
            && "SortBy" in keys && "SortOrder" in keys
            && ("Genres" in keys <==> |selected| > 0)
            && "Limit" !in keys && "StartIndex" !in keys
            && (|selected| > 0 ==> ("Genres", Join(selected, ',')) in params)
  {
    LegacyApi.LibraryParamsSpec(libraryId, LibraryQuery(field, order, selected));
    LegacyApi.LibraryParamsFixed(libraryId, LibraryQuery(field, order, selected));
  }

  /** The genres on offer come from the loaded page of items: strictly
      ascending, non-empty, and each carried by some item. */
  lemma LibraryGenres(data: Option<LegacyApi.ItemPage>)
    ensures var items := if data.Some? then data.value.items else [];
            var r := AvailableGenres(items);
            && (forall i, j :: 0 <= i < j < |r| ==> TextBelow(r[i], r[j]))
            && (forall g :: g in r <==> g != "" && exists item :: item in items && item.genres.Some? && g in item.genres.value)
  {
    AvailableGenresSpec(if data.Some? then data.value.items else []);
  }
}
