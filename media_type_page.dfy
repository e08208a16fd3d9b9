/** The per-type browsing page (src/apps/stable/pages/MediaTypePage.tsx):
    the fetched items, optionally narrowed to the hits of a search, filtered
    by the selected genres and sorted by the chosen field. */
module MediaTypePage {
  import opened Js
  import opened Text
  import opened ApiTypes
  import opened Lists
  import opened Sorting
  import opened Browsing
  import BitHarbor

  /** What the comparator reads from an item: the name, or the year or the
      rating with a missing (or zero) value taken as 0. */
  function SortKeyOf(field: SortField, item: MediaItem): SortKey {
    match field
    case SortName => Text(item.name)
    case PremiereDate => Num(OrNumber(item.productionYear, Some(0.0)).value)
    case CommunityRating => Num(OrNumber(item.communityRating, Some(0.0)).value)
  }

  /** `new Map(items.map(i => [i.Id, i])).get(id)`: a later item with the
      same id overwrites an earlier one, so this is the last such item. */
  function LastById(items: seq<MediaItem>, id: string): (r: Option<MediaItem>)
    ensures r.Some? <==> exists i :: 0 <= i < |items| && items[i].id == id
    ensures r.Some? ==> r.value.id == id
    ensures r.Some? ==> exists i :: 0 <= i < |items| && items[i] == r.value && forall j :: i < j < |items| ==> items[j].id != id
  {
    if items == [] then None
    else if items[|items| - 1].id == id then Some(items[|items| - 1])
    else
      var r := LastById(items[..|items| - 1], id);
      assert forall i :: 0 <= i < |items| - 1 ==> items[..|items| - 1][i] == items[i];
      r
  }

  /** The search hits whose id was fetched, in hit order. */
  function KnownHits(results: seq<MediaItem>, items: seq<MediaItem>): (r: seq<MediaItem>)
    ensures |r| <= |results|
    ensures forall h :: h in r <==> h in results && LastById(items, h.id).Some?
  {
    Filter(results, (h: MediaItem) => LastById(items, h.id).Some?)
  }

  /** The fetched items the search hits refer to, in hit order; a hit whose
      id was not fetched is dropped. */
  function Rehydrate(results: seq<MediaItem>, items: seq<MediaItem>): (r: seq<MediaItem>)
    ensures |r| <= |results|
    ensures forall x :: x in r ==> x in items && exists h :: h in results && h.id == x.id
  {
    if results == [] then []
    else
      var rest := Rehydrate(results[1..], items);
      match LastById(items, results[0].id)
      case Some(x) => [x] + rest
      case None => rest
  }

  /** The page shows one item per fetched hit, in hit order: the last
      fetched item with the hit's id. */
  lemma {:induction false} RehydrateKnownHits(results: seq<MediaItem>, items: seq<MediaItem>)
    ensures var known := KnownHits(results, items);
            var r := Rehydrate(results, items);
            |r| == |known| && forall i :: 0 <= i < |r| ==> r[i] == LastById(items, known[i].id).value
  {
    if results != [] {
      RehydrateKnownHits(results[1..], items);
      var hit := LastById(items, results[0].id);
      var known, rest := KnownHits(results[1..], items), Rehydrate(results[1..], items);
      var all, r := KnownHits(results, items), Rehydrate(results, items);
      if hit.Some? {
        assert all == [results[0]] + known;
        assert r == [hit.value] + rest;
        forall i | 0 < i < |r| ensures r[i] == LastById(items, all[i].id).value {
          assert r[i] == rest[i - 1] && all[i] == known[i - 1];
        }
      } else {
        assert all == known && r == rest;
      }
    }
  }

  /** When every hit was fetched, the page shows one item per hit, in hit
      order, each the last fetched item with the hit's id. */
  lemma RehydrateAllKnown(results: seq<MediaItem>, items: seq<MediaItem>)
    requires forall h :: h in results ==> LastById(items, h.id).Some?
    ensures var r := Rehydrate(results, items);
            && |r| == |results|
            && forall i :: 0 <= i < |r| ==> r[i] == LastById(items, results[i].id).value && r[i].id == results[i].id
  {
    FilterAll(results, (h: MediaItem) => LastById(items, h.id).Some?);
    assert KnownHits(results, items) == results;
    RehydrateKnownHits(results, items);
  }

  /** With search hits and fetched items the page starts from the hits;
      otherwise from the fetched items, or nothing. An empty hit list is
      still a list of hits. */
  function BaseItems(searchResults: Option<seq<MediaItem>>, items: Option<seq<MediaItem>>): seq<MediaItem> {
    if searchResults.Some? && items.Some? then Rehydrate(searchResults.value, items.value) else items.GetOr([])
  }

  /** `item.Genres?.some(g => selected.includes(g))` */
  predicate HasSelectedGenre(item: MediaItem, selected: seq<string>) {
    item.genres.Some? && exists g :: g in item.genres.value && g in selected
  }

  /** The genre filter, applied only to a non-empty selection. */
  function GenreFiltered(base: seq<MediaItem>, selected: seq<string>): seq<MediaItem> {
    if |selected| > 0 then Filter(base, (item: MediaItem) => HasSelectedGenre(item, selected)) else base
  }

  function KeyAll(field: SortField, s: seq<MediaItem>): (r: seq<Keyed<MediaItem>>)
    ensures |r| == |s| && forall i :: 0 <= i < |s| ==> r[i] == Keyed(SortKeyOf(field, s[i]), s[i])
  {
    seq(|s|, i requires 0 <= i < |s| => Keyed(SortKeyOf(field, s[i]), s[i]))
  }

  /** `filteredAndSortedItems`, as a value. */
  function FilteredAndSorted(items: Option<seq<MediaItem>>, searchResults: Option<seq<MediaItem>>,
                             selected: seq<string>, field: SortField, order: SortOrder): seq<MediaItem> {
    Values(StableSort(KeyAll(field, GenreFiltered(BaseItems(searchResults, items), selected)), order == Descending))
  }

  /** `filteredAndSortedItems`: a copy of the base list is filtered, then
      sorted in place; the fetched list itself is left as it is. */
  method FilteredAndSortedItems(items: Option<seq<MediaItem>>, searchResults: Option<seq<MediaItem>>,
                                selected: seq<string>, field: SortField, order: SortOrder) returns (r: seq<MediaItem>)
    ensures r == FilteredAndSorted(items, searchResults, selected, field, order)
  {
    var baseItems := BaseItems(searchResults, items);
    var filtered := baseItems;
    if |selected| > 0 {
      filtered := Filter(filtered, (item: MediaItem) => HasSelectedGenre(item, selected));
    }
    var keyed := KeyAll(field, filtered);
    var a := new Keyed<MediaItem>[|keyed|](i requires 0 <= i < |keyed| => keyed[i]);
    assert a[..] == keyed;
    SortInPlace(a, order == Descending);
    r := Values(a[..]);
  }

  /** The page lists exactly the base items that pass the genre filter, each
      as often as in the base list, ordered by the chosen field in the chosen
      direction. */
  lemma FilteredAndSortedSpec(items: Option<seq<MediaItem>>, searchResults: Option<seq<MediaItem>>,
                              selected: seq<string>, field: SortField, order: SortOrder)
    ensures var base := BaseItems(searchResults, items);
            var r := FilteredAndSorted(items, searchResults, selected, field, order);
            && multiset(r) == multiset(GenreFiltered(base, selected))
            && (forall x :: x in r <==> x in base && (|selected| == 0 || HasSelectedGenre(x, selected)))
            && forall i, j :: 0 <= i < j < |r| ==>
                 !Precedes(SortKeyOf(field, r[j]), SortKeyOf(field, r[i]), order == Descending)
  {
    var filtered := GenreFiltered(BaseItems(searchResults, items), selected);
    var keyed := KeyAll(field, filtered);
    SortedValues(keyed, order == Descending, (item: MediaItem) => SortKeyOf(field, item));
    assert Values(keyed) == filtered;
    SameMembers(FilteredAndSorted(items, searchResults, selected, field, order), filtered);
  }

  /** Lists with the same multiset have the same members. */
  lemma SameMembers(a: seq<MediaItem>, b: seq<MediaItem>)
    requires multiset(a) == multiset(b)
    ensures forall x :: x in a <==> x in b
  {
    forall x
      ensures x in a <==> x in b
    {
      assert x in a <==> x in multiset(a);
      assert x in b <==> x in multiset(b);
    }
  }

  /** The page's query: `getMedia(type).Items`, except that an error whose
      message mentions 404 counts as an empty list. */
  function LoadItems(outcome: Result<BitHarbor.MediaPage>): (r: Result<seq<MediaItem>>)
    ensures r.Ok? <==> outcome.Ok? || Contains(outcome.error, "404")
    ensures outcome.Ok? ==> r.value == outcome.value.items
    ensures outcome.Err? && r.Ok? ==> r.value == []
  {
    match outcome
    case Ok(page) => Ok(page.items)
    case Err(e) => if Contains(e, "404") then Ok([]) else Err(e)
  }

  /** The adapter reports an HTTP 404 as "Failed to fetch media", so a
      missing type endpoint is shown as an error, not as an empty page: the
      404 rule only applies to a network failure whose message happens to
      mention 404. */
  lemma NotFoundStaysAnError(t: MediaType, body: seq<BitHarbor.AllRecord>)
    ensures LoadItems(BitHarbor.GetMediaOfType(t, Response(404, body))) == Err("Failed to fetch media")
  {
    var outcome := BitHarbor.GetMediaOfType(t, Response(404, body));
    assert outcome == Err("Failed to fetch media");
    FetchErrorLacks404();
  }

  /** The adapter's fetch-failure message carries no status code. */
  lemma FetchErrorLacks404()
    ensures !Contains("Failed to fetch media", "404")
  {
    var e := "Failed to fetch media";
    assert '4' !in e;
    if Contains(e, "404") {
      ContainsFirst(e, "404");
    }
  }
}
