/** The list controls the media-type page and the library page share
    (src/apps/stable/pages/MediaTypePage.tsx, LibraryDetail.tsx): the sort
    choices, the genres on offer and the toggle that selects one. Both pages
    compute them the same way. */
module Browsing {
  import opened Js
  import opened ApiTypes
  import opened Lists
  import opened Sorting

  /** The sort fields the pages offer. */
  datatype SortField = SortName | PremiereDate | CommunityRating

  datatype SortOrder = Ascending | Descending

  function FieldName(field: SortField): string {
    match field
    case SortName => "SortName"
    case PremiereDate => "PremiereDate"
    case CommunityRating => "CommunityRating"
  }

  function OrderName(order: SortOrder): string {
    if order == Ascending then "Ascending" else "Descending"
  }

  /** `items.flatMap(item => item.Genres || [])` */
  function AllGenres(items: seq<MediaItem>): (r: seq<string>)
    ensures forall g :: g in r <==> exists item :: item in items && item.genres.Some? && g in item.genres.value
  {
    if items == [] then []
    else
      var rest := AllGenres(items[1..]);
      assert forall item :: item in items[1..] ==> item in items;
      assert forall item :: item in items ==> item == items[0] || item in items[1..];
      items[0].genres.GetOr([]) + rest
  }

  /** `Array.from(new Set(s))`: each element once, at its first occurrence. */
  function Distinct(s: seq<string>): (r: seq<string>)
    ensures forall x :: x in r <==> x in s
    ensures forall x :: multiset(r)[x] <= 1
  {
    if s == [] then []
    else
      var d := Distinct(s[..|s| - 1]);
      var last := s[|s| - 1];
      assert forall x :: x in s <==> x in s[..|s| - 1] || x == last;
      if last in d then d else d + [last]
  }

  /** `s.sort()` on strings: ascending by code units. */
  function SortTexts(s: seq<string>): seq<string> {
    Values(StableSort(seq(|s|, i requires 0 <= i < |s| => Keyed(Text(s[i]), s[i])), false))
  }

  /** Sorting texts keeps each one as often as before, in ascending order. */
  lemma SortTextsSpec(s: seq<string>)
    ensures multiset(SortTexts(s)) == multiset(s)
    ensures forall i, j :: 0 <= i < j < |SortTexts(s)| ==> !TextBelow(SortTexts(s)[j], SortTexts(s)[i])
  {
    var keyed := seq(|s|, i requires 0 <= i < |s| => Keyed(Text(s[i]), s[i]));
    var sorted := StableSort(keyed, false);
    StableSortSpec(keyed, false);
    ValuesSortPermutes(keyed, false);
    assert Values(keyed) == s;
    forall i | 0 <= i < |sorted|
      ensures sorted[i].key == Text(sorted[i].value)
    {
      assert sorted[i] in multiset(keyed);
    }
    forall i, j | 0 <= i < j < |sorted|
      ensures !TextBelow(sorted[j].value, sorted[i].value)
    {
      assert !Precedes(sorted[j].key, sorted[i].key, false);
    }
  }

  /** `availableGenres`: the distinct non-empty genres of the items, sorted. */
  function AvailableGenres(items: seq<MediaItem>): seq<string> {
    SortTexts(Distinct(Filter(AllGenres(items), (g: string) => g != "")))
  }

  /** The genres on offer are strictly ascending (so sorted and free of
      duplicates), and are exactly the non-empty genres some item carries. */
  lemma AvailableGenresSpec(items: seq<MediaItem>)
    ensures var r := AvailableGenres(items);
            && (forall i, j :: 0 <= i < j < |r| ==> TextBelow(r[i], r[j]))
            && (forall g :: g in r <==> g != "" && exists item :: item in items && item.genres.Some? && g in item.genres.value)
  {
    var d := Distinct(Filter(AllGenres(items), (g: string) => g != ""));
    var r := SortTexts(d);
    SortTextsSpec(d);
    forall i, j | 0 <= i < j < |r|
      ensures TextBelow(r[i], r[j])
    {
      if r[i] == r[j] {
        TwiceCountsTwice(r, i, j);
        assert false;
      }
      TextBelowTotal(r[i], r[j]);
    }
    forall g
      ensures g in r <==> g in d
    {
      assert g in r <==> g in multiset(r);
    }
  }

  /** An element at two positions occurs at least twice. */
  lemma TwiceCountsTwice(r: seq<string>, i: int, j: int)
    requires 0 <= i < j < |r| && r[i] == r[j]
    ensures multiset(r)[r[i]] >= 2
  {
    assert r == r[..j] + [r[j]] + r[j + 1..];
    assert r[i] in r[..j];
  }

  /** `handleGenreToggle`: a selected genre is removed (every copy), any
      other is appended at the end. */
  function ToggleGenre(selected: seq<string>, genre: string): (r: seq<string>)
    ensures genre in r <==> genre !in selected
    ensures forall g :: g != genre ==> (g in r <==> g in selected)
    ensures genre !in selected ==> r == selected + [genre]
    ensures genre in selected ==> r == Filter(selected, (g: string) => g != genre)
  {
    if genre in selected then Filter(selected, (g: string) => g != genre) else selected + [genre]
  }

  /** Toggling a genre that is not selected twice gives back the selection
      exactly, order included. */
  lemma ToggleTwiceRestores(selected: seq<string>, genre: string)
    requires genre !in selected
    ensures ToggleGenre(ToggleGenre(selected, genre), genre) == selected
  {
    var p := (g: string) => g != genre;
    FilterAppend(selected, [genre], p);
    FilterAll(selected, p);
    assert Filter([genre], p) == [];
  }
}
